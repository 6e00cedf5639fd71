/** Mailboxes (ipc.c): a ring of words between senders and receivers that may both block.

    A thread woken inside rt_mb_send_wait or rt_mb_recv looks at the mailbox again before it goes on, so between its
    wake-up and that look other threads may take its place.  The invariant NoLostWakeup says that this is harmless. */
module Mailbox {
  import opened Scheduler
  import opened Seqs
  import opened IpcList
  import Others

  const EOK: int := 0
  const ERROR: int := 1
  const ETIMEOUT: int := 2

  // The ring.

  function Wrap(i: int, size: int): int { if i >= size then i - size else i }

  /** The mails in the order they will be received. */
  function Mails(pool: seq<int>, out: nat, entry: nat): (c: seq<int>)
    requires entry <= |pool| && (out < |pool| || entry == 0)
    ensures |c| == entry
  {
    seq(entry, k requires 0 <= k < entry => pool[Wrap(out + k, |pool|)])
  }

  ghost predicate RingOk(pool: seq<int>, inn: int, out: int, entry: int) {
    && 0 <= entry <= |pool|
    && (|pool| == 0 ==> inn == 0 && out == 0)
    && (|pool| > 0 ==> 0 <= inn < |pool| && 0 <= out < |pool| && inn == Wrap(out + entry, |pool|))
  }

  lemma PutMail(pool: seq<int>, inn: int, out: int, entry: int, v: int)
    requires RingOk(pool, inn, out, entry) && entry < |pool|
    ensures var in' := if inn + 1 >= |pool| then 0 else inn + 1;
            && RingOk(pool[inn := v], in', out, entry + 1)
            && Mails(pool[inn := v], out, entry + 1) == Mails(pool, out, entry) + [v]
  {
    var a, b := Mails(pool[inn := v], out, entry + 1), Mails(pool, out, entry) + [v];
    forall k | 0 <= k < |a| ensures a[k] == b[k] {
      assert a[k] == pool[inn := v][Wrap(out + k, |pool|)];
    }
  }

  lemma GetMail(pool: seq<int>, inn: int, out: int, entry: int)
    requires RingOk(pool, inn, out, entry) && entry > 0
    ensures var out' := if out + 1 >= |pool| then 0 else out + 1;
            && RingOk(pool, inn, out', entry - 1)
            && Mails(pool, out, entry) == [pool[out]] + Mails(pool, out', entry - 1)
  {
    var out' := if out + 1 >= |pool| then 0 else out + 1;
    var a, b := Mails(pool, out, entry), [pool[out]] + Mails(pool, out', entry - 1);
    forall k | 0 <= k < |a| ensures a[k] == b[k] {
      assert a[k] == pool[Wrap(out + k, |pool|)];
      if k > 0 {
        assert Mails(pool, out', entry - 1)[k - 1] == pool[Wrap(out' + k - 1, |pool|)];
      }
    }
  }

  // The threads.

  /** Who is inside a call: waiting to receive or to send, woken and about to look again, or sent away with an error. */
  datatype Crowd = Crowd(receivers: seq<Thread>, senders: seq<Thread>, wokenReceivers: set<Thread>,
                         wokenSenders: set<Thread>, expelled: set<Thread>)

  /** A thread is in one place. */
  ghost predicate Apart(c: Crowd) {
    && (forall t {:trigger t in c.receivers} :: t in c.receivers ==>
        t !in c.senders && t !in c.wokenReceivers && t !in c.wokenSenders && t !in c.expelled)
    && (forall t {:trigger t in c.senders} :: t in c.senders ==>
        t !in c.wokenReceivers && t !in c.wokenSenders && t !in c.expelled)
    && c.wokenReceivers !! c.wokenSenders && c.wokenReceivers !! c.expelled && c.wokenSenders !! c.expelled
  }

  /** thread->error is RT_EOK for the waiting and the woken, an error for the expelled. */
  ghost predicate ErrorsOk(c: Crowd, error: map<Thread, int>) {
    && (forall t {:trigger t in c.receivers} :: t in c.receivers ==> t in error && error[t] == EOK)
    && (forall t {:trigger t in c.senders} :: t in c.senders ==> t in error && error[t] == EOK)
    && (forall t {:trigger t in c.wokenReceivers} :: t in c.wokenReceivers ==> t in error && error[t] == EOK)
    && (forall t {:trigger t in c.wokenSenders} :: t in c.wokenSenders ==> t in error && error[t] == EOK)
    && (forall t {:trigger t in c.expelled} :: t in c.expelled ==>
        t in error && (error[t] == ETIMEOUT || error[t] == ERROR))
  }

  /** While someone waits to receive, every mail in the box has a woken receiver on its way; while someone waits to
      send, every free place has a woken sender on its way. */
  ghost predicate NoLostWakeup(c: Crowd, size: int, entry: int) {
    && (c.receivers != [] ==> entry <= |c.wokenReceivers|)
    && (c.senders != [] ==> size - entry <= |c.wokenSenders|)
  }

  ghost predicate CrowdOk(s: Sys, c: Crowd, error: map<Thread, int>, size: int, entry: int) {
    && Waiting(s, c.receivers) && Waiting(s, c.senders) && AllAwake(s, c)
    && Apart(c) && ErrorsOk(c, error) && NoLostWakeup(c, size, entry)
  }

  /** Whoever has been woken is ready or running. */
  ghost predicate AllAwake(s: Sys, c: Crowd) {
    Awake(s, c.wokenReceivers) && Awake(s, c.wokenSenders) && Awake(s, c.expelled)
  }

  ghost predicate Inside(c: Crowd, t: Thread) {
    t in c.receivers || t in c.senders || t in c.wokenReceivers || t in c.wokenSenders || t in c.expelled
  }

  /** A mail goes in, put there by t, perhaps a woken sender; the first waiting receiver is woken. */
  function AfterPut(c: Crowd, t: Thread): Crowd {
    var c1 := c.(wokenSenders := c.wokenSenders - {t});
    if c.receivers == [] then c1
      else c1.(receivers := c.receivers[1..], wokenReceivers := c.wokenReceivers + {c.receivers[0]})
  }

  function AfterGet(c: Crowd, t: Thread): Crowd {
    var c1 := c.(wokenReceivers := c.wokenReceivers - {t});
    if c.senders == [] then c1 else c1.(senders := c.senders[1..], wokenSenders := c.wokenSenders + {c.senders[0]})
  }

  /** rt_ipc_list_resume of the first waiter, if there is one. */
  function FirstWoken(s: Sys, q: seq<Thread>): Sys
    requires q != [] ==> q[0] in s.tcb
  {
    if q == [] then s else Inserted(s, q[0])
  }

  /** s' is s with the first of q resumed. */
  ghost predicate WokeFirst(s: Sys, q: seq<Thread>, s': Sys) {
    (q != [] ==> q[0] in s.tcb) && s' == FirstWoken(s, q)
  }

  /** The first of a list is woken. */
  lemma WakeFirst(top: int, s: Sys, q: seq<Thread>, r: seq<Thread>)
    requires SysOk(top, s) && Waiting(s, q) && Waiting(s, r) && q != []
             && (forall t {:trigger t in q} :: t in q ==> t !in r)
    ensures q[0] in s.tcb && s.tcb[q[0]].stat == Suspended && SysOk(top, Inserted(s, q[0])) && q[0] !in q[1..]
            && q[0] !in r
    ensures Waiting(Inserted(s, q[0]), q[1..]) && Waiting(Inserted(s, q[0]), r)
    ensures forall u {:trigger u in q[1..]} :: u in q[1..] ==> u in q
  {
    hide SysOk, Inserted;
    assert q[0] in q;
    WaitingWake(top, s, q, q[0]);
    MinusHead(q);
    WaitingOther(s, r, q[0]);
    hide Waiting;
  }

  lemma AllAwakeWake(s: Sys, c: Crowd, t: Thread)
    requires AllAwake(s, c) && t in s.tcb
    ensures AllAwake(Inserted(s, t), c)
    ensures Awake(Inserted(s, t), c.wokenReceivers + {t}) && Awake(Inserted(s, t), c.wokenSenders + {t})
            && Awake(Inserted(s, t), c.expelled + {t})
  {
    hide Awake, Inserted;
    AwakeWake(s, c.wokenReceivers, t);
    AwakeWake(s, c.wokenSenders, t);
    AwakeWake(s, c.expelled, t);
  }

  lemma AwakeLess(s: Sys, w: set<Thread>, t: Thread)
    requires Awake(s, w)
    ensures Awake(s, w - {t})
  {
  }

  /** The running thread starts to wait; it is on at most one of the ways. */
  lemma AllAwakeBlock(s: Sys, c: Crowd)
    requires AllAwake(s, c) && s.current in s.tcb
    ensures var s', t := Retired(s, s.current, Suspended), s.current;
            && (t !in c.wokenSenders && t !in c.expelled ==> AllAwake(s', c.(wokenReceivers := c.wokenReceivers - {t})))
            && (t !in c.wokenReceivers && t !in c.expelled ==> AllAwake(s', c.(wokenSenders := c.wokenSenders - {t})))
  {
    hide Awake, Retired;
    AwakeBlock(s, c.wokenReceivers, s.current);
    AwakeBlock(s, c.wokenSenders, s.current);
    AwakeBlock(s, c.expelled, s.current);
  }

  lemma PutKeeps(top: int, s: Sys, c: Crowd, error: map<Thread, int>, size: int, entry: int, t: Thread)
    requires SysOk(top, s) && CrowdOk(s, c, error, size, entry) && entry < size
    requires t in c.wokenSenders || !Inside(c, t)
    ensures c.receivers != [] ==> c.receivers[0] in s.tcb && s.tcb[c.receivers[0]].stat == Suspended
    ensures SysOk(top, FirstWoken(s, c.receivers))
            && CrowdOk(FirstWoken(s, c.receivers), AfterPut(c, t), error, size, entry + 1)
  {
    hide SysOk, Waiting, Inserted, Apart, ErrorsOk, Inside, Awake;
    if c.receivers != [] {
      ApartFirst(c);
      WakeFirst(top, s, c.receivers, c.senders);
      AllAwakeWake(s, c, c.receivers[0]);
    }
    AwakeLess(FirstWoken(s, c.receivers), c.wokenSenders, t);
    PutApart(s, c, error, size, entry, t);
  }

  lemma PutApart(s: Sys, c: Crowd, error: map<Thread, int>, size: int, entry: int, t: Thread)
    requires Apart(c) && ErrorsOk(c, error) && NoLostWakeup(c, size, entry) && (t in c.wokenSenders || !Inside(c, t))
    requires c.receivers != [] ==> c.receivers[0] !in c.receivers[1..]
    ensures Apart(AfterPut(c, t)) && ErrorsOk(AfterPut(c, t), error) && NoLostWakeup(AfterPut(c, t), size, entry + 1)
  {
    Leave(c.wokenSenders, t);
    if c.receivers != [] {
      assert c.receivers[0] in c.receivers;
      assert forall u :: u in c.receivers[1..] ==> u in c.receivers;
      Join(c.wokenReceivers, c.receivers[0]);
    }
  }

  lemma ApartFirst(c: Crowd)
    requires Apart(c)
    ensures forall t {:trigger t in c.receivers} :: t in c.receivers ==> t !in c.senders
    ensures forall t {:trigger t in c.senders} :: t in c.senders ==> t !in c.receivers
  {
  }

  lemma GetKeeps(top: int, s: Sys, c: Crowd, error: map<Thread, int>, size: int, entry: int, t: Thread)
    requires SysOk(top, s) && CrowdOk(s, c, error, size, entry) && entry > 0
    requires t in c.wokenReceivers || !Inside(c, t)
    ensures c.senders != [] ==> c.senders[0] in s.tcb && s.tcb[c.senders[0]].stat == Suspended
    ensures SysOk(top, FirstWoken(s, c.senders))
            && CrowdOk(FirstWoken(s, c.senders), AfterGet(c, t), error, size, entry - 1)
  {
    hide SysOk, Waiting, Inserted, Apart, ErrorsOk, Inside, Awake;
    if c.senders != [] {
      ApartFirst(c);
      WakeFirst(top, s, c.senders, c.receivers);
      AllAwakeWake(s, c, c.senders[0]);
    }
    AwakeLess(FirstWoken(s, c.senders), c.wokenReceivers, t);
    GetApart(s, c, error, size, entry, t);
  }

  lemma GetApart(s: Sys, c: Crowd, error: map<Thread, int>, size: int, entry: int, t: Thread)
    requires Apart(c) && ErrorsOk(c, error) && NoLostWakeup(c, size, entry) && (t in c.wokenReceivers || !Inside(c, t))
    requires c.senders != [] ==> c.senders[0] !in c.senders[1..]
    ensures Apart(AfterGet(c, t)) && ErrorsOk(AfterGet(c, t), error) && NoLostWakeup(AfterGet(c, t), size, entry - 1)
  {
    Leave(c.wokenReceivers, t);
    if c.senders != [] {
      assert c.senders[0] in c.senders;
      assert forall u :: u in c.senders[1..] ==> u in c.senders;
      Join(c.wokenSenders, c.senders[0]);
    }
  }

  lemma Leave(w: set<Thread>, t: Thread)
    ensures |w - {t}| == if t in w then |w| - 1 else |w|
  {
    if t !in w {
      assert w - {t} == w;
    }
  }

  lemma Join(w: set<Thread>, t: Thread)
    ensures |w + {t}| == if t in w then |w| else |w| + 1
  {
    if t in w {
      assert w + {t} == w;
    }
  }

  function ReceiverBlocks(c: Crowd, tcb: map<Thread, Tcb>, flag: Flag, t: Thread): Crowd {
    c.(wokenReceivers := c.wokenReceivers - {t}, receivers := Enqueued(c.receivers, tcb, flag, t))
  }

  function SenderBlocks(c: Crowd, tcb: map<Thread, Tcb>, flag: Flag, t: Thread): Crowd {
    c.(wokenSenders := c.wokenSenders - {t}, senders := Enqueued(c.senders, tcb, flag, t))
  }

  lemma ReceiverBlockKeeps(top: int, s: Sys, c: Crowd, error: map<Thread, int>, size: int, flag: Flag)
    requires SysOk(top, s) && CrowdOk(s, c, error, size, 0) && s.current in s.tcb && s.tcb[s.current].stat == Running
    requires s.current in c.wokenReceivers || !Inside(c, s.current)
    ensures SysOk(top, Retired(s, s.current, Suspended))
    ensures CrowdOk(Retired(s, s.current, Suspended), ReceiverBlocks(c, s.tcb, flag, s.current),
                    error[s.current := EOK], size, 0)
  {
    hide SysOk, Waiting, Retired, Enqueued, Awake;
    WaitingBlock(top, s, c.receivers, flag);
    WaitingBlock(top, s, c.senders, flag);
    AllAwakeBlock(s, c);
    Leave(c.wokenReceivers, s.current);
  }

  lemma SenderBlockKeeps(top: int, s: Sys, c: Crowd, error: map<Thread, int>, size: int, flag: Flag)
    requires SysOk(top, s) && CrowdOk(s, c, error, size, size) && s.current in s.tcb && s.tcb[s.current].stat == Running
    requires s.current in c.wokenSenders || !Inside(c, s.current)
    ensures SysOk(top, Retired(s, s.current, Suspended))
    ensures CrowdOk(Retired(s, s.current, Suspended), SenderBlocks(c, s.tcb, flag, s.current), error[s.current := EOK],
                    size, size)
  {
    hide SysOk, Waiting, Retired, Enqueued, Awake;
    WaitingBlock(top, s, c.receivers, flag);
    WaitingBlock(top, s, c.senders, flag);
    AllAwakeBlock(s, c);
    Leave(c.wokenSenders, s.current);
  }

  /** A thread that is at most on its way to look leaves. */
  lemma GoneApart(c: Crowd, error: map<Thread, int>, t: Thread, code: int)
    requires Apart(c) && ErrorsOk(c, error) && (t in c.wokenReceivers || t in c.wokenSenders || !Inside(c, t))
    ensures t in c.wokenReceivers || !Inside(c, t) ==> var c' := c.(wokenReceivers := c.wokenReceivers - {t});
            Apart(c') && ErrorsOk(c', error[t := code])
    ensures t in c.wokenSenders || !Inside(c, t) ==> var c' := c.(wokenSenders := c.wokenSenders - {t});
            Apart(c') && ErrorsOk(c', error[t := code])
  {
  }

  /** A woken thread looks, finds nothing for it, has no time left, and goes; or a fresh one does. */
  lemma ReceiverQuitKeeps(s: Sys, c: Crowd, error: map<Thread, int>, size: int, t: Thread, code: int)
    requires CrowdOk(s, c, error, size, 0) && (t in c.wokenReceivers || !Inside(c, t))
    ensures CrowdOk(s, c.(wokenReceivers := c.wokenReceivers - {t}), error[t := code], size, 0)
  {
    hide Waiting, Awake, Apart, ErrorsOk, Inside;
    AwakeLess(s, c.wokenReceivers, t);
    GoneApart(c, error, t, code);
    Leave(c.wokenReceivers, t);
  }

  lemma SenderQuitKeeps(s: Sys, c: Crowd, error: map<Thread, int>, size: int, t: Thread, code: int)
    requires CrowdOk(s, c, error, size, size) && (t in c.wokenSenders || !Inside(c, t))
    ensures CrowdOk(s, c.(wokenSenders := c.wokenSenders - {t}), error[t := code], size, size)
  {
    hide Waiting, Awake, Apart, ErrorsOk, Inside;
    AwakeLess(s, c.wokenSenders, t);
    GoneApart(c, error, t, code);
    Leave(c.wokenSenders, t);
  }

  lemma ResetKeeps(s: Sys, c: Crowd, error: map<Thread, int>, size: int, entry: int)
    requires CrowdOk(s, c, error, size, entry) && c.receivers == [] && c.senders == []
    ensures CrowdOk(s, c, error, size, 0)
  {
    hide Waiting, Apart, ErrorsOk, Awake;
  }

  function Expelled(c: Crowd, w: Thread): Crowd {
    c.(receivers := Minus(c.receivers, w), senders := Minus(c.senders, w), expelled := c.expelled + {w})
  }

  /** A timeout, or a reset, takes one waiter away with an error. */
  lemma ExpelKeeps(top: int, s: Sys, c: Crowd, error: map<Thread, int>, size: int, entry: int, w: Thread, code: int)
    requires SysOk(top, s) && CrowdOk(s, c, error, size, entry) && (w in c.receivers || w in c.senders)
             && (code == ETIMEOUT || code == ERROR)
    ensures w in s.tcb && AttributesOk(top, s.tcb[w]) && SysOk(top, Inserted(s, w))
    ensures CrowdOk(Inserted(s, w), Expelled(c, w), error[w := code], size, entry)
    ensures |Minus(c.receivers, w)| + |Minus(c.senders, w)| < |c.receivers| + |c.senders|
    ensures forall u {:trigger u in Minus(c.receivers, w)} {:trigger u in c.receivers} ::
            u in Minus(c.receivers, w) <==> u in c.receivers && u != w
    ensures forall u {:trigger u in Minus(c.senders, w)} {:trigger u in c.senders} :: u in Minus(c.senders, w) <==>
              u in c.senders && u != w
  {
    hide SysOk, Inserted, Waiting, Minus, AttributesOk, Awake;
    MinusMembers(c.receivers, w);
    MinusMembers(c.senders, w);
    if w in c.receivers {
      WaitingWake(top, s, c.receivers, w);
      WaitingOther(s, c.senders, w);
      MinusShorter(c.receivers, w);
    } else {
      WaitingWake(top, s, c.senders, w);
      WaitingOther(s, c.receivers, w);
      MinusShorter(c.senders, w);
    }
    AllAwakeWake(s, c, w);
    ExpelApart(c, error, w, code);
  }

  lemma ExpelApart(c: Crowd, error: map<Thread, int>, w: Thread, code: int)
    requires Apart(c) && ErrorsOk(c, error) && (w in c.receivers || w in c.senders)
             && (code == ETIMEOUT || code == ERROR)
    ensures Apart(Expelled(c, w)) && ErrorsOk(Expelled(c, w), error[w := code])
    ensures Minus(c.receivers, w) != [] ==> c.receivers != []
    ensures Minus(c.senders, w) != [] ==> c.senders != []
  {
    hide Minus;
    MinusMembers(c.receivers, w);
    MinusMembers(c.senders, w);
    if Minus(c.receivers, w) != [] {
      assert Minus(c.receivers, w)[0] in Minus(c.receivers, w);
    }
    if Minus(c.senders, w) != [] {
      assert Minus(c.senders, w)[0] in Minus(c.senders, w);
    }
  }

  lemma ScheduleKeeps(top: int, s: Sys, h: int, c: Crowd, error: map<Thread, int>, size: int, entry: int)
    requires SysOk(top, s) && s.current != 0 && QueueAt(s.queues, h) != [] && CrowdOk(s, c, error, size, entry)
    ensures s.current in s.tcb && QueueAt(s.queues, h)[0] in s.tcb && CrowdOk(Scheduled(s, h), c, error, size, entry)
  {
    hide SysOk, Scheduled, Waiting, Awake;
    WaitingSchedule(top, s, h, c.receivers);
    WaitingSchedule(top, s, h, c.senders);
    AwakeSchedule(top, s, h, c.wokenReceivers);
    AwakeSchedule(top, s, h, c.wokenSenders);
    AwakeSchedule(top, s, h, c.expelled);
  }

  /** A thread that is in no call of the mailbox does something else. */
  lemma OthersKeep(s: Sys, s': Sys, t: Thread, c: Crowd, error: map<Thread, int>, size: int, entry: int)
    requires CrowdOk(s, c, error, size, entry) && Others.Undisturbed(s, s', t) && !Inside(c, t)
    ensures CrowdOk(s', c, error, size, entry)
  {
    hide Waiting, Awake, Apart, ErrorsOk, NoLostWakeup, Others.Undisturbed;
    Others.WaitingStill(s, s', t, c.receivers);
    Others.WaitingStill(s, s', t, c.senders);
    Others.AwakeStill(s, s', t, c.wokenReceivers);
    Others.AwakeStill(s, s', t, c.wokenSenders);
    Others.AwakeStill(s, s', t, c.expelled);
  }

  datatype SendOutcome = Sent | Full | SendBlocked

  datatype RecvOutcome = Got(value: int) | Empty | RecvBlocked

  /** What a send by t does to the threads. */
  ghost predicate SendMoves(r: SendOutcome, flag: Flag, t: Thread, s: Sys, c: Crowd, error: map<Thread, int>, s': Sys,
                            c': Crowd, error': map<Thread, int>)
  {
    match r
    case Sent => c' == AfterPut(c, t) && WokeFirst(s, c.receivers, s') && error' == error
    case Full => c' == c.(wokenSenders := c.wokenSenders - {t}) && s' == s && error' == error[t := EOK]
    case SendBlocked =>
      && t in s.tcb && c' == SenderBlocks(c, s.tcb, flag, t) && s' == Retired(s, t, Suspended)
      && error' == error[t := EOK]
  }

  /** What a receive by t does to them. */
  ghost predicate RecvMoves(r: RecvOutcome, flag: Flag, t: Thread, s: Sys, c: Crowd, error: map<Thread, int>, s': Sys,
                            c': Crowd, error': map<Thread, int>)
  {
    match r
    case Got(_) => c' == AfterGet(c, t) && WokeFirst(s, c.senders, s') && error' == error
    case Empty => c' == c.(wokenReceivers := c.wokenReceivers - {t}) && s' == s && error' == error[t := ETIMEOUT]
    case RecvBlocked =>
      && t in s.tcb && c' == ReceiverBlocks(c, s.tcb, flag, t) && s' == Retired(s, t, Suspended)
      && error' == error[t := EOK]
  }

  // The order of the lists, and the reasons.

  /** Why a wait ended in vain. */
  datatype Cause = TimedOut | WasReset

  function CodeOf(c: Cause): int { if c.TimedOut? then ETIMEOUT else ERROR }

  lemma CodeKnown(c: Cause)
    ensures CodeOf(c) == ETIMEOUT || CodeOf(c) == ERROR
  {
  }

  /** thread->error tells the expelled why. */
  ghost predicate CausesOk(expelled: set<Thread>, cause: map<Thread, Cause>, error: map<Thread, int>) {
    forall t {:trigger t in expelled} :: t in expelled ==> t in cause && t in error && error[t] == CodeOf(cause[t])
  }

  /** All of these have been sent away by a reset, and nobody else has. */
  ghost predicate AllReset(q: seq<Thread>, cause: map<Thread, Cause>, cause': map<Thread, Cause>) {
    && (forall t {:trigger t in q} :: t in q ==> t in cause' && cause'[t] == WasReset)
    && forall t {:trigger t in cause'} {:trigger t in cause} :: t !in q ==>
         (t in cause' <==> t in cause) && (t in cause' && t in cause ==> cause'[t] == cause[t])
  }

  lemma ResetNone(cause: map<Thread, Cause>)
    ensures AllReset([], cause, cause)
  {
  }

  lemma ResetMore(done: seq<Thread>, w: Thread, cause: map<Thread, Cause>, cause': map<Thread, Cause>)
    requires AllReset(done, cause, cause')
    ensures AllReset(done + [w], cause, cause'[w := WasReset])
    ensures (set t | t in done + [w]) == (set t | t in done) + {w}
  {
  }

  /** One waiter fewer, the others in place. */
  lemma ExpelledMembers(c: Crowd, w: Thread)
    requires w in c.receivers || w in c.senders
    ensures var c' := Expelled(c, w);
            && |c'.receivers| + |c'.senders| < |c.receivers| + |c.senders|
            && (forall u {:trigger u in c'.receivers} {:trigger u in c.receivers} ::
                  u in c'.receivers <==> u in c.receivers && u != w)
            && (forall u {:trigger u in c'.senders} {:trigger u in c.senders} ::
                  u in c'.senders <==> u in c.senders && u != w)
  {
    MinusMembers(c.receivers, w);
    MinusMembers(c.senders, w);
    MinusLength(c.receivers, w);
    MinusLength(c.senders, w);
    if w in c.receivers {
      MinusShorter(c.receivers, w);
    } else {
      MinusShorter(c.senders, w);
    }
  }

  ghost predicate LinesOk(flag: Flag, c: Crowd, tcb: map<Thread, Tcb>, arrival: map<Thread, int>, ticket: int) {
    InLine(flag, c.receivers, tcb, arrival, ticket) && InLine(flag, c.senders, tcb, arrival, ticket)
  }

  lemma LinesFirst(flag: Flag, c: Crowd, tcb: map<Thread, Tcb>, arrival: map<Thread, int>, ticket: int)
    requires LinesOk(flag, c, tcb, arrival, ticket)
    ensures c.receivers != [] ==> IsNext(flag, c.receivers[0], c.receivers, tcb, arrival)
    ensures c.senders != [] ==> IsNext(flag, c.senders[0], c.senders, tcb, arrival)
  {
    hide InLine, IsNext;
    if c.receivers != [] {
      FirstIsNext(flag, c.receivers, tcb, arrival, ticket);
    }
    if c.senders != [] {
      FirstIsNext(flag, c.senders, tcb, arrival, ticket);
    }
  }

  lemma AfterPutIs(c: Crowd, t: Thread)
    ensures var c' := AfterPut(c, t);
            c.receivers != [] ==>
              c'.receivers == c.receivers[1..] && c'.wokenReceivers == c.wokenReceivers + {c.receivers[0]}
  {
  }

  lemma AfterGetIs(c: Crowd, t: Thread)
    ensures var c' := AfterGet(c, t);
            c.senders != [] ==> c'.senders == c.senders[1..] && c'.wokenSenders == c.wokenSenders + {c.senders[0]}
  {
  }

  /** The first of the two lists is woken. */
  lemma WakeLines(s: Sys, flag: Flag, q: seq<Thread>, r: seq<Thread>, arrival: map<Thread, int>, ticket: int)
    requires InLine(flag, q, s.tcb, arrival, ticket) && InLine(flag, r, s.tcb, arrival, ticket)
    requires q != [] && NoRepeats(q) && q[0] in s.tcb
    ensures InLine(flag, q[1..], Inserted(s, q[0]).tcb, arrival, ticket)
    ensures InLine(flag, r, Inserted(s, q[0]).tcb, arrival, ticket)
  {
    hide InLine, Inserted, NoRepeats;
    LineWakeFirst(s, flag, q, arrival, ticket);
    LineWake(s, flag, r, arrival, ticket, q[0]);
  }

  lemma PutLines(s: Sys, c: Crowd, error: map<Thread, int>, size: int, entry: int, flag: Flag,
                 arrival: map<Thread, int>,
                 ticket: int, cause: map<Thread, Cause>, t: Thread, s': Sys)
    requires CrowdOk(s, c, error, size, entry) && LinesOk(flag, c, s.tcb, arrival, ticket)
    requires CausesOk(c.expelled, cause, error) && WokeFirst(s, c.receivers, s')
    ensures LinesOk(flag, AfterPut(c, t), s'.tcb, arrival, ticket) && CausesOk(AfterPut(c, t).expelled, cause, error)
  {
    hide InLine, Inserted, NoRepeats, CausesOk;
    if c.receivers != [] {
      WakeLines(s, flag, c.receivers, c.senders, arrival, ticket);
    }
  }

  lemma GetLines(s: Sys, c: Crowd, error: map<Thread, int>, size: int, entry: int, flag: Flag,
                 arrival: map<Thread, int>,
                 ticket: int, cause: map<Thread, Cause>, t: Thread, s': Sys)
    requires CrowdOk(s, c, error, size, entry) && LinesOk(flag, c, s.tcb, arrival, ticket)
    requires CausesOk(c.expelled, cause, error) && WokeFirst(s, c.senders, s')
    ensures LinesOk(flag, AfterGet(c, t), s'.tcb, arrival, ticket) && CausesOk(AfterGet(c, t).expelled, cause, error)
  {
    hide InLine, Inserted, NoRepeats, CausesOk;
    if c.senders != [] {
      WakeLines(s, flag, c.senders, c.receivers, arrival, ticket);
    }
  }

  /** The error of a thread that looks is nobody else's. */
  lemma CausesFrame(c: Crowd, error: map<Thread, int>, cause: map<Thread, Cause>, t: Thread, code: int)
    requires Apart(c) && CausesOk(c.expelled, cause, error)
    requires t in c.wokenReceivers || t in c.wokenSenders || !Inside(c, t)
    ensures CausesOk(c.expelled, cause, error[t := code])
  {
  }

  lemma QuitLines(s: Sys, c: Crowd, error: map<Thread, int>, size: int, entry: int, flag: Flag,
                  arrival: map<Thread, int>, ticket: int, cause: map<Thread, Cause>, t: Thread, code: int)
    requires CrowdOk(s, c, error, size, entry) && LinesOk(flag, c, s.tcb, arrival, ticket)
    requires CausesOk(c.expelled, cause, error) && (t in c.wokenReceivers || t in c.wokenSenders || !Inside(c, t))
    ensures LinesOk(flag, c.(wokenSenders := c.wokenSenders - {t}), s.tcb, arrival, ticket)
    ensures LinesOk(flag, c.(wokenReceivers := c.wokenReceivers - {t}), s.tcb, arrival, ticket)
    ensures CausesOk(c.expelled, cause, error[t := code])
  {
    hide InLine;
    CausesFrame(c, error, cause, t, code);
  }

  lemma ReceiverLines(s: Sys, c: Crowd, error: map<Thread, int>, size: int, entry: int, flag: Flag,
                      arrival: map<Thread, int>, ticket: int, cause: map<Thread, Cause>)
    requires CrowdOk(s, c, error, size, entry) && LinesOk(flag, c, s.tcb, arrival, ticket) && s.current in s.tcb
    requires CausesOk(c.expelled, cause, error) && (s.current in c.wokenReceivers || !Inside(c, s.current))
    ensures LinesOk(flag, ReceiverBlocks(c, s.tcb, flag, s.current), Retired(s, s.current, Suspended).tcb,
                    arrival[s.current := ticket], ticket + 1)
    ensures CausesOk(c.expelled, cause, error[s.current := EOK])
  {
    CausesFrame(c, error, cause, s.current, EOK);
    hide InLine, CausesOk, Retired, Enqueued, NoRepeats;
    LineBlock(s, flag, c.receivers, c.senders, arrival, ticket);
  }

  lemma SenderLines(s: Sys, c: Crowd, error: map<Thread, int>, size: int, entry: int, flag: Flag,
                    arrival: map<Thread, int>, ticket: int, cause: map<Thread, Cause>)
    requires CrowdOk(s, c, error, size, entry) && LinesOk(flag, c, s.tcb, arrival, ticket) && s.current in s.tcb
    requires CausesOk(c.expelled, cause, error) && (s.current in c.wokenSenders || !Inside(c, s.current))
    ensures LinesOk(flag, SenderBlocks(c, s.tcb, flag, s.current), Retired(s, s.current, Suspended).tcb,
                    arrival[s.current := ticket], ticket + 1)
    ensures CausesOk(c.expelled, cause, error[s.current := EOK])
  {
    CausesFrame(c, error, cause, s.current, EOK);
    hide InLine, CausesOk, Retired, Enqueued, NoRepeats;
    LineBlock(s, flag, c.senders, c.receivers, arrival, ticket);
  }

  lemma ExpelLines(s: Sys, c: Crowd, error: map<Thread, int>, flag: Flag, arrival: map<Thread, int>, ticket: int,
                   cause: map<Thread, Cause>, w: Thread, why: Cause)
    requires LinesOk(flag, c, s.tcb, arrival, ticket) && w in s.tcb && CausesOk(c.expelled, cause, error)
    ensures LinesOk(flag, Expelled(c, w), Inserted(s, w).tcb, arrival, ticket)
    ensures CausesOk(Expelled(c, w).expelled, cause[w := why], error[w := CodeOf(why)])
  {
    hide InLine, Inserted, Minus;
    LineWake(s, flag, c.receivers, arrival, ticket, w);
    LineWake(s, flag, c.senders, arrival, ticket, w);
  }

  lemma OthersLines(s: Sys, s': Sys, t: Thread, flag: Flag, c: Crowd, arrival: map<Thread, int>, ticket: int)
    requires LinesOk(flag, c, s.tcb, arrival, ticket) && Others.Undisturbed(s, s', t) && !Inside(c, t)
    ensures LinesOk(flag, c, s'.tcb, arrival, ticket)
  {
    hide InLine, Others.Undisturbed;
    Others.LineStill(s, s', t, flag, c.receivers, arrival, ticket);
    Others.LineStill(s, s', t, flag, c.senders, arrival, ticket);
  }

  lemma ScheduleLines(top: int, s: Sys, h: int, flag: Flag, c: Crowd, arrival: map<Thread, int>, ticket: int)
    requires SysOk(top, s) && s.current != 0 && QueueAt(s.queues, h) != [] && LinesOk(flag, c, s.tcb, arrival, ticket)
    ensures s.current in s.tcb && QueueAt(s.queues, h)[0] in s.tcb
    ensures LinesOk(flag, c, Scheduled(s, h).tcb, arrival, ticket)
  {
    hide InLine, SysOk, Scheduled;
    LineSchedule(top, s, h, flag, c.receivers, arrival, ticket);
    LineSchedule(top, s, h, flag, c.senders, arrival, ticket);
  }

  lemma SendLines(r: SendOutcome, flag: Flag, s: Sys, c: Crowd, error: map<Thread, int>, s': Sys, c': Crowd,
                  error': map<Thread, int>, size: int, entry: int, arrival: map<Thread, int>, ticket: int,
                  cause: map<Thread, Cause>)
    requires CrowdOk(s, c, error, size, entry) && LinesOk(flag, c, s.tcb, arrival, ticket) && s.current in s.tcb
    requires CausesOk(c.expelled, cause, error) && (s.current in c.wokenSenders || !Inside(c, s.current))
    requires SendMoves(r, flag, s.current, s, c, error, s', c', error')
    ensures CausesOk(c'.expelled, cause, error')
    ensures if r.SendBlocked? then LinesOk(flag, c', s'.tcb, arrival[s.current := ticket], ticket + 1)
            else LinesOk(flag, c', s'.tcb, arrival, ticket)
    ensures r.Sent? && c.receivers != [] ==>
              && IsNext(flag, c.receivers[0], c.receivers, s.tcb, arrival)
              && c'.receivers == c.receivers[1..] && c'.wokenReceivers == c.wokenReceivers + {c.receivers[0]}
  {
    LinesFirst(flag, c, s.tcb, arrival, ticket);
    AfterPutIs(c, s.current);
    PutExpelled(c, s.current);
    hide CrowdOk, LinesOk, CausesOk, Inside, AfterPut, SenderBlocks, IsNext, WokeFirst, Retired;
    match r {
      case Sent => PutLines(s, c, error, size, entry, flag, arrival, ticket, cause, s.current, s');
      case Full => QuitLines(s, c, error, size, entry, flag, arrival, ticket, cause, s.current, EOK);
      case SendBlocked => SenderLines(s, c, error, size, entry, flag, arrival, ticket, cause);
    }
  }

  lemma RecvLines(r: RecvOutcome, flag: Flag, s: Sys, c: Crowd, error: map<Thread, int>, s': Sys, c': Crowd,
                  error': map<Thread, int>, size: int, entry: int, arrival: map<Thread, int>, ticket: int,
                  cause: map<Thread, Cause>)
    requires CrowdOk(s, c, error, size, entry) && LinesOk(flag, c, s.tcb, arrival, ticket) && s.current in s.tcb
    requires CausesOk(c.expelled, cause, error) && (s.current in c.wokenReceivers || !Inside(c, s.current))
    requires RecvMoves(r, flag, s.current, s, c, error, s', c', error')
    ensures CausesOk(c'.expelled, cause, error')
    ensures if r.RecvBlocked? then LinesOk(flag, c', s'.tcb, arrival[s.current := ticket], ticket + 1)
            else LinesOk(flag, c', s'.tcb, arrival, ticket)
    ensures r.Got? && c.senders != [] ==>
              && IsNext(flag, c.senders[0], c.senders, s.tcb, arrival)
              && c'.senders == c.senders[1..] && c'.wokenSenders == c.wokenSenders + {c.senders[0]}
  {
    LinesFirst(flag, c, s.tcb, arrival, ticket);
    AfterGetIs(c, s.current);
    PutExpelled(c, s.current);
    hide CrowdOk, LinesOk, CausesOk, Inside, AfterGet, ReceiverBlocks, IsNext, WokeFirst, Retired;
    match r {
      case Got(_) => GetLines(s, c, error, size, entry, flag, arrival, ticket, cause, s.current, s');
      case Empty => QuitLines(s, c, error, size, entry, flag, arrival, ticket, cause, s.current, ETIMEOUT);
      case RecvBlocked => ReceiverLines(s, c, error, size, entry, flag, arrival, ticket, cause);
    }
  }

  lemma PutExpelled(c: Crowd, t: Thread)
    ensures AfterPut(c, t).expelled == AfterGet(c, t).expelled == c.expelled
    ensures forall tcb, flag :: SenderBlocks(c, tcb, flag, t).expelled == c.expelled
    ensures forall tcb, flag :: ReceiverBlocks(c, tcb, flag, t).expelled == c.expelled
  {
  }

  class Mailbox {
    const sched: Scheduler
    const flag: Flag
    const size: int
    const msgPool: array<int>
    var entry: int
    var inOffset: int
    var outOffset: int
    var receivers: seq<Thread>               // parent.suspend_thread
    var senders: seq<Thread>                 // suspend_sender_thread
    var error: map<Thread, int>              // thread->error, negated
    ghost var wokenReceivers: set<Thread>    // resumed in rt_mb_recv with RT_EOK, not yet running
    ghost var wokenSenders: set<Thread>      // resumed in rt_mb_send_wait with RT_EOK, not yet running
    ghost var expelled: set<Thread>          // resumed with an error, not yet returned
    ghost var cause: map<Thread, Cause>      // why a thread was last expelled
    ghost var arrival: map<Thread, int>      // when each thread last started to wait
    ghost var ticket: int
    ghost var mails: seq<int>                // in the box, in the order they will be received
    ghost var sent: seq<int>                 // mails accepted since the last reset
    ghost var received: seq<int>             // mails handed out since the last reset

    ghost function People(): Crowd
      reads this`receivers, this`senders, this`wokenReceivers, this`wokenSenders, this`expelled
    {
      Crowd(receivers, senders, wokenReceivers, wokenSenders, expelled)
    }

    /** The ring holds exactly the mails. */
    ghost predicate BoxOk()
      reads this`entry, this`inOffset, this`outOffset, this`mails, msgPool
    {
      size == msgPool.Length && RingOk(msgPool[..], inOffset, outOffset, entry)
      && mails == Mails(msgPool[..], outOffset, entry)
    }

    /** The mails, the threads, and the promise that no wakeup is lost. */
    ghost predicate Core()
      reads this, sched, msgPool
    {
      && BoxOk() && sent == received + mails
      && sched.Valid() && CrowdOk(sched.State(), People(), error, size, entry)
    }

    /** Also, both lists are in the order of the flag, and who waited in vain will be told why. */
    ghost predicate Valid()
      reads this, sched, msgPool
    {
      Core() && LinesOk(flag, People(), sched.tcb, arrival, ticket) && CausesOk(expelled, cause, error)
    }

    /** The running thread is in no call of this mailbox, or has just been woken in one. */
    ghost predicate Looks(woken: set<Thread>)
      reads this`receivers, this`senders, this`wokenReceivers, this`wokenSenders, this`expelled, sched
    {
      && sched.current in sched.tcb && sched.tcb[sched.current].stat == Running
      && (sched.current in woken || !Inside(People(), sched.current))
    }

    /** rt_mb_init. */
    constructor (sched: Scheduler, flag: Flag, pool: array<int>)
      requires sched.Valid()
      ensures Valid() && this.sched == sched && this.flag == flag && msgPool == pool && mails == [] && sent == []
      ensures receivers == senders == [] && wokenReceivers == wokenSenders == expelled == {}
    {
      this.sched, this.flag, msgPool, size := sched, flag, pool, pool.Length;
      entry, inOffset, outOffset, receivers, senders, error := 0, 0, 0, [], [], map[];
      wokenReceivers, wokenSenders, expelled, mails, sent, received := {}, {}, {}, [], [], [];
      cause, arrival, ticket := map[], map[], 0;
    }

    method Send(value: int, timeout: int) returns (r: SendOutcome)
      requires Core() && Looks(wokenSenders)
      modifies this, msgPool, sched`queues, sched`readyGroup, sched`readyTable, sched`tcb
      ensures Core() && sched.current == old(sched.current)
      ensures r == if old(entry) < size then Sent else if timeout == 0 then Full else SendBlocked
      ensures mails == if r.Sent? then old(mails) + [value] else old(mails)
      ensures received == old(received)
      ensures SendMoves(r, flag, sched.current, old(sched.State()), old(People()), old(error), sched.State(), People(),
                        error)
      ensures cause == old(cause) && arrival == old(arrival) && ticket == old(ticket)
    {
      hide CrowdOk, RingOk, Mails, SysOk, BitsOk, Retired, Inserted, Inside, AfterPut, SenderBlocks;
      RingBounds(msgPool[..], inOffset, outOffset, entry);
      if entry == size {
        if timeout == 0 {
          SenderQuitKeeps(sched.State(), People(), error, size, sched.current, EOK);
          error := error[sched.current := EOK];
          wokenSenders := wokenSenders - {sched.current};
          return Full;
        }
        SenderBlock();
        return SendBlocked;
      }
      Put(value);
      r := Sent;
    }

    method SenderBlock()
      requires Core() && Looks(wokenSenders) && entry == size
      modifies this`error, this`wokenSenders, this`senders, sched`queues, sched`readyGroup, sched`readyTable, sched`tcb
      ensures Core() && mails == old(mails)
              && People() == SenderBlocks(old(People()), old(sched.tcb), flag, sched.current)
      ensures sched.State() == old(Retired(sched.State(), sched.current, Suspended))
      ensures error == old(error)[sched.current := EOK]
    {
      hide CrowdOk, RingOk, Mails, SysOk, BitsOk, Retired, Inside;
      var thread := sched.current;
      SenderBlockKeeps(sched.top, sched.State(), People(), error, size, flag);
      error := error[thread := EOK];
      wokenSenders := wokenSenders - {thread};
      senders := Suspend(senders, thread);
    }

    /** The mail goes in and a receiver is woken. */
    method Put(value: int)
      requires Core() && Looks(wokenSenders) && entry < size
      modifies this`entry, this`inOffset, this`mails, this`receivers, this`wokenReceivers, this`wokenSenders, this`sent,
               msgPool,
               sched`queues, sched`readyGroup, sched`readyTable, sched`tcb
      ensures Core() && mails == old(mails) + [value] && People() == AfterPut(old(People()), sched.current)
      ensures WokeFirst(old(sched.State()), old(receivers), sched.State())
    {
      hide CrowdOk, RingOk, Mails, SysOk, BitsOk, Inserted, Inside;
      PutKeeps(sched.top, sched.State(), People(), error, size, entry, sched.current);
      sent := sent + [value];
      Store(value);
      wokenSenders := wokenSenders - {sched.current};
      if receivers != [] {
        WakeReceiver();
      }
    }

    method Store(value: int)
      requires BoxOk() && entry < size
      modifies this`entry, this`inOffset, this`mails, msgPool
      ensures BoxOk() && mails == old(mails) + [value] && entry == old(entry) + 1
    {
      hide RingOk, Mails;
      RingBounds(msgPool[..], inOffset, outOffset, entry);
      PutMail(msgPool[..], inOffset, outOffset, entry, value);
      msgPool[inOffset] := value;
      inOffset := inOffset + 1;
      if inOffset >= size {
        inOffset := 0;
      }
      entry := entry + 1;
      mails := mails + [value];
    }

    method WakeReceiver()
      requires sched.Valid() && receivers != [] && receivers[0] in sched.tcb
               && sched.tcb[receivers[0]].stat == Suspended
      modifies this`receivers, this`wokenReceivers, sched`queues, sched`readyGroup, sched`readyTable, sched`tcb
      ensures sched.Valid() && old(receivers[0] in sched.tcb)
              && sched.State() == Inserted(old(sched.State()), old(receivers[0]))
      ensures receivers == old(receivers[1..]) && wokenReceivers == old(wokenReceivers) + {old(receivers[0])}
    {
      hide SysOk, BitsOk, Inserted;
      var w := receivers[0];
      var ok := sched.Resume(w);
      receivers := receivers[1..];
      wokenReceivers := wokenReceivers + {w};
    }

    method Receive(timeout: int) returns (r: RecvOutcome)
      requires Core() && Looks(wokenReceivers)
      modifies this, sched`queues, sched`readyGroup, sched`readyTable, sched`tcb
      ensures Core() && sched.current == old(sched.current)
      ensures if old(entry) > 0 then r.Got? else r == if timeout == 0 then Empty else RecvBlocked
      ensures r.Got? ==> old(mails) == [r.value] + mails
      ensures !r.Got? ==> mails == old(mails)
      ensures sent == old(sent) && received == if r.Got? then old(received) + [r.value] else old(received)
      ensures RecvMoves(r, flag, sched.current, old(sched.State()), old(People()), old(error), sched.State(), People(),
                        error)
      ensures cause == old(cause) && arrival == old(arrival) && ticket == old(ticket)
    {
      hide CrowdOk, RingOk, Mails, SysOk, BitsOk, Retired, Inserted, Inside, AfterGet, ReceiverBlocks;
      RingBounds(msgPool[..], inOffset, outOffset, entry);
      if entry == 0 {
        if timeout == 0 {
          ReceiverQuitKeeps(sched.State(), People(), error, size, sched.current, ETIMEOUT);
          error := error[sched.current := ETIMEOUT];
          wokenReceivers := wokenReceivers - {sched.current};
          return Empty;
        }
        ReceiverBlock();
        return RecvBlocked;
      }
      var value := Get();
      r := Got(value);
    }

    method ReceiverBlock()
      requires Core() && Looks(wokenReceivers) && entry == 0
      modifies this`error, this`wokenReceivers, this`receivers, sched`queues, sched`readyGroup, sched`readyTable,
               sched`tcb
      ensures Core() && mails == old(mails)
              && People() == ReceiverBlocks(old(People()), old(sched.tcb), flag, sched.current)
      ensures sched.State() == old(Retired(sched.State(), sched.current, Suspended))
      ensures error == old(error)[sched.current := EOK]
    {
      hide CrowdOk, RingOk, Mails, SysOk, BitsOk, Retired, Inside;
      var thread := sched.current;
      ReceiverBlockKeeps(sched.top, sched.State(), People(), error, size, flag);
      error := error[thread := EOK];
      wokenReceivers := wokenReceivers - {thread};
      receivers := Suspend(receivers, thread);
    }

    /** A mail comes out and a sender is woken. */
    method Get() returns (value: int)
      requires Core() && Looks(wokenReceivers) && entry > 0
      modifies this`entry, this`outOffset, this`mails, this`senders, this`wokenReceivers, this`wokenSenders,
               this`received,
               sched`queues, sched`readyGroup, sched`readyTable, sched`tcb
      ensures Core() && old(mails) == [value] + mails && received == old(received) + [value]
      ensures People() == AfterGet(old(People()), sched.current)
              && WokeFirst(old(sched.State()), old(senders), sched.State())
    {
      hide CrowdOk, RingOk, Mails, SysOk, BitsOk, Inserted, Inside;
      GetKeeps(sched.top, sched.State(), People(), error, size, entry, sched.current);
      value := Fetch();
      received := received + [value];
      wokenReceivers := wokenReceivers - {sched.current};
      if senders != [] {
        WakeSender();
      }
    }

    method Fetch() returns (value: int)
      requires BoxOk() && entry > 0
      modifies this`entry, this`outOffset, this`mails
      ensures BoxOk() && old(mails) == [value] + mails && entry == old(entry) - 1
    {
      hide RingOk, Mails;
      RingBounds(msgPool[..], inOffset, outOffset, entry);
      GetMail(msgPool[..], inOffset, outOffset, entry);
      value := msgPool[outOffset];
      outOffset := outOffset + 1;
      if outOffset >= size {
        outOffset := 0;
      }
      entry := entry - 1;
      mails := mails[1..];
    }

    method WakeSender()
      requires sched.Valid() && senders != [] && senders[0] in sched.tcb && sched.tcb[senders[0]].stat == Suspended
      modifies this`senders, this`wokenSenders, sched`queues, sched`readyGroup, sched`readyTable, sched`tcb
      ensures sched.Valid() && old(senders[0] in sched.tcb)
              && sched.State() == Inserted(old(sched.State()), old(senders[0]))
      ensures senders == old(senders[1..]) && wokenSenders == old(wokenSenders) + {old(senders[0])}
    {
      hide SysOk, BitsOk, Inserted;
      var w := senders[0];
      var ok := sched.Resume(w);
      senders := senders[1..];
      wokenSenders := wokenSenders + {w};
    }

    /** rt_ipc_list_suspend: the list with the thread in it. */
    method Suspend(q: seq<Thread>, thread: Thread) returns (q': seq<Thread>)
      requires sched.Valid() && thread in sched.tcb && sched.tcb[thread].stat == Running
      modifies sched`queues, sched`readyGroup, sched`readyTable, sched`tcb
      ensures sched.Valid() && q' == Enqueued(q, old(sched.tcb), flag, thread)
      ensures sched.State() == Retired(old(sched.State()), thread, Suspended)
    {
      hide SysOk, BitsOk, Retired, PrioPosition;
      var i := |q|;
      if flag == Prio {
        i := FindPosition(q, sched.tcb, sched.tcb[thread].priority);
      }
      assert q[..|q|] == q && q[|q|..] == [];
      assert q + [thread] == q + [thread] + [];
      q' := Insert(q, i, thread);
      var ok := sched.Suspend(thread);
    }

    lemma ValidFacts()
      requires Valid()
      ensures Core() && CrowdOk(sched.State(), People(), error, size, entry) && CausesOk(expelled, cause, error)
      ensures LinesOk(flag, People(), sched.tcb, arrival, ticket)
    {
    }

    lemma Facts(woken: set<Thread>)
      requires Valid() && Looks(woken)
      ensures Core() && CrowdOk(sched.State(), People(), error, size, entry) && CausesOk(expelled, cause, error)
      ensures LinesOk(flag, People(), sched.tcb, arrival, ticket)
      ensures sched.current in sched.tcb && (sched.current in woken || !Inside(People(), sched.current))
    {
      ValidFacts();
    }

    lemma Names()
      ensures People() == Crowd(receivers, senders, wokenReceivers, wokenSenders, expelled)
      ensures sched.State() == Sys(sched.queues, sched.tcb, sched.current)
    {
    }

    /** Note the time if t has started to wait. */
    ghost method Arrives(t: Thread, waits: bool)
      requires Core() && CausesOk(expelled, cause, error)
      requires if waits then LinesOk(flag, People(), sched.tcb, arrival[t := ticket], ticket + 1)
               else LinesOk(flag, People(), sched.tcb, arrival, ticket)
      modifies this`arrival, this`ticket
      ensures Valid()
      ensures arrival == if waits then old(arrival)[t := old(ticket)] else old(arrival)
      ensures ticket == if waits then old(ticket) + 1 else old(ticket)
    {
      hide LinesOk, CausesOk, CrowdOk, BitsOk, SysOk;
      if waits {
        arrival, ticket := arrival[t := ticket], ticket + 1;
      }
    }

    /** rt_mb_send_wait from its call, or from its return out of rt_schedule with RT_EOK, to the next rt_schedule or
        return. */
    method SendStep(value: int, timeout: int) returns (r: SendOutcome)
      requires Valid() && Looks(wokenSenders)
      modifies this, msgPool, sched`queues, sched`readyGroup, sched`readyTable, sched`tcb
      ensures Valid() && sched.current == old(sched.current)
      ensures r == if old(entry) < size then Sent else if timeout == 0 then Full else SendBlocked
      ensures mails == if r.Sent? then old(mails) + [value] else old(mails)
      ensures received == old(received) && cause == old(cause)
      ensures SendMoves(r, flag, sched.current, old(sched.State()), old(People()), old(error), sched.State(), People(),
                        error)
      ensures r.Sent? && old(receivers) != [] ==>
                var w := old(receivers)[0];
                && IsNext(flag, w, old(receivers), old(sched.tcb), old(arrival))
                && receivers == old(receivers)[1..] && wokenReceivers == old(wokenReceivers) + {w}
      ensures arrival == if r.SendBlocked? then old(arrival)[sched.current := old(ticket)] else old(arrival)
      ensures ticket == if r.SendBlocked? then old(ticket) + 1 else old(ticket)
    {
      hide *;
      ghost var s, c, e, n := sched.State(), People(), error, entry;
      Facts(wokenSenders);
      Names();
      r := Send(value, timeout);
      Names();
      SendLines(r, flag, s, c, e, sched.State(), People(), error, size, n, arrival, ticket, cause);
      Arrives(sched.current, r.SendBlocked?);
    }

    /** rt_mb_recv, in the same steps. */
    method RecvStep(timeout: int) returns (r: RecvOutcome)
      requires Valid() && Looks(wokenReceivers)
      modifies this, sched`queues, sched`readyGroup, sched`readyTable, sched`tcb
      ensures Valid() && sched.current == old(sched.current)
      ensures if old(entry) > 0 then r.Got? else r == if timeout == 0 then Empty else RecvBlocked
      ensures if r.Got? then old(mails) == [r.value] + mails else mails == old(mails)
      ensures sent == old(sent) && received == if r.Got? then old(received) + [r.value] else old(received)
      ensures cause == old(cause)
      ensures RecvMoves(r, flag, sched.current, old(sched.State()), old(People()), old(error), sched.State(), People(),
                        error)
      ensures r.Got? && old(senders) != [] ==>
                var w := old(senders)[0];
                && IsNext(flag, w, old(senders), old(sched.tcb), old(arrival))
                && senders == old(senders)[1..] && wokenSenders == old(wokenSenders) + {w}
      ensures arrival == if r.RecvBlocked? then old(arrival)[sched.current := old(ticket)] else old(arrival)
      ensures ticket == if r.RecvBlocked? then old(ticket) + 1 else old(ticket)
    {
      hide *;
      ghost var s, c, e, n := sched.State(), People(), error, entry;
      Facts(wokenReceivers);
      Names();
      r := Receive(timeout);
      Names();
      RecvLines(r, flag, s, c, e, sched.State(), People(), error, size, n, arrival, ticket, cause);
      Arrives(sched.current, r.RecvBlocked?);
    }

    method SendAway(w: Thread, code: int)
      requires Core() && (w in receivers || w in senders) && (code == ETIMEOUT || code == ERROR)
      modifies this`receivers, this`senders, this`expelled, this`error, sched`queues, sched`readyGroup,
               sched`readyTable, sched`tcb
      ensures Core() && People() == Expelled(old(People()), w) && error == old(error)[w := code]
              && mails == old(mails)
      ensures old(w in sched.tcb) && sched.State() == Inserted(old(sched.State()), w)
    {
      hide CrowdOk, RingOk, Mails, SysOk, BitsOk, Inserted, Minus, AttributesOk;
      ExpelKeeps(sched.top, sched.State(), People(), error, size, entry, w, code);
      error := error[w := code];
      receivers := Minus(receivers, w);
      senders := Minus(senders, w);
      sched.InsertThread(w);
      expelled := expelled + {w};
    }

    /** rt_thread_timeout for a waiter, or one round of rt_ipc_list_resume_all, up to the next rt_schedule. */
    method Expel(w: Thread, why: Cause)
      requires Valid() && (w in receivers || w in senders)
      modifies this`receivers, this`senders, this`expelled, this`error, this`cause, sched`queues, sched`readyGroup,
               sched`readyTable, sched`tcb
      ensures Valid() && People() == Expelled(old(People()), w) && mails == old(mails)
      ensures error == old(error)[w := CodeOf(why)] && cause == old(cause)[w := why]
      ensures old(w in sched.tcb) && sched.State() == Inserted(old(sched.State()), w)
    {
      hide *;
      ghost var s, c, e := sched.State(), People(), error;
      CodeKnown(why);
      ValidFacts();
      Names();
      SendAway(w, CodeOf(why));
      Names();
      ExpelLines(s, c, e, flag, arrival, ticket, cause, w, why);
      NoteCause(w, why);
    }

    ghost method NoteCause(w: Thread, why: Cause)
      requires Core() && LinesOk(flag, People(), sched.tcb, arrival, ticket)
      requires CausesOk(expelled, cause[w := why], error)
      modifies this`cause
      ensures Valid() && cause == old(cause)[w := why]
    {
      hide LinesOk, CausesOk, CrowdOk, BitsOk, SysOk;
      cause := cause[w := why];
    }

    /** rt_mb_control with RT_IPC_CMD_RESET, up to its rt_schedule. */
    method Reset()
      requires Valid()
      modifies this, sched`queues, sched`readyGroup, sched`readyTable, sched`tcb
      ensures Valid() && receivers == [] && senders == [] && mails == [] && sent == []
      ensures wokenReceivers == old(wokenReceivers) && wokenSenders == old(wokenSenders)
      ensures expelled == old(expelled) + set t | t in old(receivers) + old(senders)
      ensures sched.State() == Resumed(old(sched.State()), old(receivers) + old(senders))
      ensures AllReset(old(receivers) + old(senders), old(cause), cause)
    {
      hide CrowdOk, SysOk, BitsOk, Resumed, LinesOk, CausesOk, AllReset;
      ExpelAll();
      ResetKeeps(sched.State(), People(), error, size, entry);
      entry, inOffset, outOffset := 0, 0, 0;
      mails, sent, received := [], [], [];
    }

    method ExpelAll()
      requires Valid()
      modifies this`receivers, this`senders, this`expelled, this`error, this`cause, sched`queues, sched`readyGroup,
               sched`readyTable, sched`tcb
      ensures Valid() && receivers == [] && senders == []
      ensures AllReset(old(receivers) + old(senders), old(cause), cause)
      ensures expelled == old(expelled) + set t | t in old(receivers) + old(senders)
      ensures sched.State() == Resumed(old(sched.State()), old(receivers) + old(senders))
    {
      hide *;
      ResetNone(cause);
      ghost var done: seq<Thread> := [];
      assert Resumed(old(sched.State()), []) == old(sched.State()) by { NobodyResumed(old(sched.State())); }
      while receivers != [] || senders != []
        invariant Valid()
        invariant expelled == old(expelled) + set t | t in done
        invariant old(receivers) + old(senders) == done + (receivers + senders)
        invariant sched.State() == Resumed(old(sched.State()), done) && AllReset(done, old(cause), cause)
        decreases |receivers| + |senders|
      {
        var w := if receivers != [] then receivers[0] else senders[0];
        ghost var rest, before := receivers + senders, cause;
        ValidFacts();
        Names();
        FirstOut(sched.State(), People(), error, size, entry);
        Expel(w, WasReset);
        Names();
        ResumedNext(old(sched.State()), done, w);
        OneMore(done, rest, w);
        ResetMore(done, w, old(cause), before);
        done := done + [w];
      }
      assert done + ([] + []) == done;
    }

    /** The return of a call that waited in vain. */
    method Fail() returns (code: int)
      requires Valid() && sched.current in expelled
      modifies this`expelled
      ensures Valid() && expelled == old(expelled) - {sched.current}
      ensures sched.current in cause
              && code == match cause[sched.current] case TimedOut => ETIMEOUT case WasReset => ERROR
    {
      hide RingOk, Mails, SysOk, BitsOk, Waiting, InLine;
      code := error[sched.current];
      expelled := expelled - {sched.current};
    }

    /** Between two steps, a thread that is in no call of this mailbox is created, started, resumed, suspended, given
        another priority, or exits. */
    method Otherwise(m: Others.Move)
      requires Valid() && Others.Allowed(sched.top, sched.State(), m) && !Inside(People(), m.thread)
      modifies sched`queues, sched`readyGroup, sched`readyTable, sched`tcb, sched`current
      ensures Valid() && mails == old(mails)
      ensures old(sched.Valid() && Others.Allowed(sched.top, sched.State(), m))
              && Others.Moved(sched.top, sched.lockNest, old(sched.State()), m, sched.State())
    {
      hide CrowdOk, RingOk, Mails, SysOk, BitsOk, Inside, LinesOk, CausesOk, Others.Moved, Others.Allowed,
           Others.Undisturbed;
      ghost var s := sched.State();
      Others.Perform(sched, m);
      OthersKeep(s, sched.State(), m.thread, People(), error, size, entry);
      OthersLines(s, sched.State(), m.thread, flag, People(), arrival, ticket);
    }

    /** rt_schedule. */
    method Reschedule()
      requires Valid() && sched.current != 0
      modifies sched`queues, sched`readyGroup, sched`readyTable, sched`tcb, sched`current
      ensures Valid() && mails == old(mails)
              && (sched.lockNest == 0 && !Idle(old(sched.queues)) ==> TopRuns(sched.State()))
      ensures if sched.lockNest == 0 then Chosen(old(sched.State()), sched.State())
              else sched.State() == old(sched.State())
    {
      hide CrowdOk, RingOk, Mails, SysOk, BitsOk, TopRuns, Scheduled, Chosen, IsFirst, Idle, LinesOk, CausesOk;
      ghost var s := sched.State();
      var h := sched.Schedule();
      if sched.lockNest == 0 && !Idle(s.queues) {
        FirstSome(s.queues, h);
        ChosenBy(s, sched.State(), h);
        ScheduleKeeps(sched.top, s, h, People(), error, size, entry);
        ScheduleLines(sched.top, s, h, flag, People(), arrival, ticket);
      } else if sched.lockNest == 0 {
        IdleChosen(s);
      }
    }
  }

  /** Taking away the first receiver, or the first sender if no receiver waits, takes it off the front of the two
      lists. */
  lemma FirstGone(s: Sys, c: Crowd, error: map<Thread, int>, size: int, entry: int)
    requires CrowdOk(s, c, error, size, entry) && c.receivers + c.senders != []
    ensures var w := (c.receivers + c.senders)[0];
            && w == (if c.receivers != [] then c.receivers[0] else c.senders[0])
            && Minus(c.receivers, w) + Minus(c.senders, w) == (c.receivers + c.senders)[1..]
  {
    var w := (c.receivers + c.senders)[0];
    MinusMembers(c.receivers, w);
    MinusMembers(c.senders, w);
    hide Minus, NoLostWakeup, ErrorsOk, AllAwake;
    if c.receivers != [] {
      assert w in c.receivers;
      MinusHead(c.receivers);
    } else {
      MinusHead(c.senders);
    }
  }

  lemma FirstOut(s: Sys, c: Crowd, error: map<Thread, int>, size: int, entry: int)
    requires CrowdOk(s, c, error, size, entry) && c.receivers + c.senders != []
    ensures var w := if c.receivers != [] then c.receivers[0] else c.senders[0];
            var c' := Expelled(c, w);
            && (w in c.receivers || w in c.senders) && w == (c.receivers + c.senders)[0]
            && c'.receivers + c'.senders == (c.receivers + c.senders)[1..] && c'.expelled == c.expelled + {w}
            && |c'.receivers| + |c'.senders| < |c.receivers| + |c.senders|
  {
    FirstGone(s, c, error, size, entry);
    var w := if c.receivers != [] then c.receivers[0] else c.senders[0];
    assert w in c.receivers || w in c.senders;
    hide Minus, CrowdOk;
    ExpelledMembers(c, w);
  }

  lemma RingBounds(pool: seq<int>, inn: int, out: int, entry: int)
    requires RingOk(pool, inn, out, entry)
    ensures 0 <= entry <= |pool| && (|pool| > 0 ==> 0 <= inn < |pool| && 0 <= out < |pool|)
  {
  }

  /** Nobody waits for what is there: without threads on their way, a receiver waits only at an empty box and a sender
      only at a full one. */
  lemma NobodyWaitsInVain(s: Sys, c: Crowd, error: map<Thread, int>, size: int, entry: int)
    requires CrowdOk(s, c, error, size, entry) && 0 <= entry <= size
    ensures c.receivers != [] && c.wokenReceivers == {} ==> entry == 0
    ensures c.senders != [] && c.wokenSenders == {} ==> entry == size
  {
    assert |c.wokenReceivers| == 0 || c.wokenReceivers != {};
    assert |c.wokenSenders| == 0 || c.wokenSenders != {};
    hide Waiting, Apart, ErrorsOk;
  }
}
