/** rt_tick_increase (clock.c): the tick counter, the running thread's time slice, and the timers.

    Time slices make equal priorities take turns: each of the top-priority threads is charged exactly its init_tick
    ticks, in ring order. */
module Clock {
  import opened Word
  import opened Scheduler
  import M = TimerModel
  import Timers

  /** Ticks by thread: init_tick, or remaining_tick. */
  type Slices = map<Thread, u32>

  // What ticks do to the threads of the top priority.

  /** The threads that take turns, the running one first, and what is left of their slices. */
  datatype Turn = Turn(ring: seq<Thread>, remaining: Slices)

  function Slice(m: Slices, t: Thread): u32 { if t in m then m[t] else 0 }

  /** One tick is charged to the running thread; the last tick of its slice sends it to the end of the ring. */
  function Spent(turn: Turn, init: Slices): (r: Turn)
    requires turn.ring != []
    ensures |r.ring| == |turn.ring|
  {
    var t := turn.ring[0];
    var left := (Slice(turn.remaining, t) - 1) % WORD;
    if left == 0 then Turn(Rotated(turn.ring), turn.remaining[t := Slice(init, t)])
    else Turn(turn.ring, turn.remaining[t := left])
  }

  function SpentBy(turn: Turn, init: Slices, n: nat): (r: Turn)
    requires turn.ring != []
    ensures r.ring != []
    decreases n
  {
    if n == 0 then turn else SpentBy(Spent(turn, init), init, n - 1)
  }

  /** Who is charged, tick by tick. */
  function Charged(turn: Turn, init: Slices, n: nat): (r: seq<Thread>)
    requires turn.ring != []
    ensures |r| == n
    decreases n
  {
    if n == 0 then [] else [turn.ring[0]] + Charged(Spent(turn, init), init, n - 1)
  }

  function Repeated(t: Thread, n: nat): seq<Thread> { seq(n, _ => t) }

  /** All slices of these threads, one after the other. */
  function Shares(ring: seq<Thread>, init: Slices): seq<Thread> {
    if ring == [] then [] else Repeated(ring[0], Slice(init, ring[0])) + Shares(ring[1..], init)
  }

  lemma ChargedNext(turn: Turn, init: Slices, n: nat)
    requires turn.ring != [] && n > 0
    ensures SpentBy(turn, init, n) == SpentBy(Spent(turn, init), init, n - 1)
    ensures Charged(turn, init, n) == [turn.ring[0]] + Charged(Spent(turn, init), init, n - 1)
  {
  }

  /** n ticks and then m more are n + m ticks. */
  ghost predicate Splits(turn: Turn, init: Slices, n: nat, m: nat)
    requires turn.ring != []
  {
    && SpentBy(turn, init, n + m) == SpentBy(SpentBy(turn, init, n), init, m)
    && Charged(turn, init, n + m) == Charged(turn, init, n) + Charged(SpentBy(turn, init, n), init, m)
  }

  lemma SplitsNext(turn: Turn, init: Slices, n: nat, m: nat)
    requires turn.ring != [] && n > 0 && Splits(Spent(turn, init), init, n - 1, m)
    ensures Splits(turn, init, n, m)
  {
    var next, last := Spent(turn, init), SpentBy(turn, init, n);
    ChargedNext(turn, init, n);
    ChargedNext(turn, init, n + m);
    hide Spent, SpentBy, Charged;
    var first, a, b := [turn.ring[0]], Charged(next, init, n - 1), Charged(last, init, m);
    assert (first + a) + b == first + (a + b);
  }

  lemma {:induction false} SpentMore(turn: Turn, init: Slices, n: nat, m: nat)
    requires turn.ring != []
    ensures Splits(turn, init, n, m)
    decreases n
  {
    if n == 0 {
      assert [] + Charged(turn, init, m) == Charged(turn, init, m);
    } else {
      hide *;
      SpentMore(Spent(turn, init), init, n - 1, m);
      SplitsNext(turn, init, n, m);
    }
  }

  /** The running thread has the processor for the rest of its slice, and then a new slice at the end of the ring. */
  lemma {:induction false} OneSlice(turn: Turn, init: Slices, n: nat)
    requires turn.ring != [] && Slice(turn.remaining, turn.ring[0]) == n >= 1
    ensures var t := turn.ring[0];
            && SpentBy(turn, init, n) == Turn(Rotated(turn.ring), turn.remaining[t := Slice(init, t)])
            && Charged(turn, init, n) == Repeated(t, n)
    decreases n
  {
    var t, next := turn.ring[0], Spent(turn, init);
    assert Repeated(t, n) == [t] + Repeated(t, n - 1);
    if n == 1 {
      assert SpentBy(next, init, 0) == next && Charged(next, init, 0) == [];
    } else {
      OneSlice(next, init, n - 1);
      assert next.remaining[t := Slice(init, t)] == turn.remaining[t := Slice(init, t)];
    }
  }

  /** All these threads have whole slices before them. */
  ghost predicate Full(ring: seq<Thread>, remaining: Slices, init: Slices) {
    forall t {:trigger t in ring} :: t in ring ==> t in remaining && remaining[t] == Slice(init, t) >= 1
  }

  /** Threads at the front of the ring with full slices run one after the other, each exactly its init_tick ticks. */
  lemma {:induction false} FrontShares(a: seq<Thread>, b: seq<Thread>, remaining: Slices, init: Slices)
    requires a + b != [] && Full(a, remaining, init)
    ensures SpentBy(Turn(a + b, remaining), init, |Shares(a, init)|) == Turn(b + a, remaining)
    ensures Charged(Turn(a + b, remaining), init, |Shares(a, init)|) == Shares(a, init)
    decreases |a|
  {
    if a == [] {
      assert a + b == b && b + a == b;
    } else {
      var t, n := a[0], Slice(init, a[0]);
      assert t in a && forall u :: u in a[1..] ==> u in a;
      var turn, next := Turn(a + b, remaining), Turn(a[1..] + (b + [t]), remaining);
      assert Rotated(a + b) == a[1..] + (b + [t]) && remaining[t := n] == remaining;
      OneSlice(turn, init, n);
      FrontShares(a[1..], b + [t], remaining, init);
      SpentMore(turn, init, n, |Shares(a[1..], init)|);
      assert (b + [t]) + a[1..] == b + a;
      assert Shares(a, init) == Repeated(t, n) + Shares(a[1..], init);
      hide SpentBy, Charged, Full, Shares, Rotated;
    }
  }

  /** A full turn: when all slices are full, every thread is charged exactly its init_tick consecutive ticks, in ring
      order, and then everything is as before. */
  lemma FullTurn(turn: Turn, init: Slices)
    requires turn.ring != [] && Full(turn.ring, turn.remaining, init)
    ensures SpentBy(turn, init, |Shares(turn.ring, init)|) == turn
    ensures Charged(turn, init, |Shares(turn.ring, init)|) == Shares(turn.ring, init)
  {
    assert turn.ring + [] == turn.ring && [] + turn.ring == turn.ring;
    FrontShares(turn.ring, [], turn.remaining, init);
  }

  // The clock interrupt.

  /** A tick is charged to t; a slice that is used up is renewed. */
  function AfterTick(remaining: Slices, init: Slices, t: Thread): Slices {
    remaining[t := if Slice(remaining, t) == 1 then Slice(init, t) else (Slice(remaining, t) - 1) % WORD]
  }

  /** s' is what the tick makes of s: rt_schedule when the running thread has used up its slice, else nothing. */
  ghost predicate Yielded(s: Sys, remaining: Slices, lockNest: int, s': Sys) {
    if Slice(remaining, s.current) == 1 && lockNest == 0 then Chosen(s, s') else s' == s
  }

  /** With an unlocked scheduler that is one step of the threads' taking turns. */
  lemma TickTurns(top: int, s: Sys, remaining: Slices, init: Slices, s': Sys, ring: seq<Thread>)
    requires SysOk(top, s) && TopTier(s, ring) && Yielded(s, remaining, 0, s')
    ensures ring != [] && ring[0] == s.current
    ensures var next := Spent(Turn(ring, remaining), init);
            TopTier(s', next.ring) && next.remaining == AfterTick(remaining, init, s.current)
  {
    hide SysOk, TopTier, Scheduled, IsFirst, Idle;
    TierSome(top, s, ring);
    LastTick(Slice(remaining, s.current));
    if Slice(remaining, s.current) == 1 {
      if Idle(s.queues) {
        IdleRotates(s, ring);
      } else {
        var h :| IsFirst(s.queues, h) && QueueAt(s.queues, h) != [] && QueueAt(s.queues, h)[0] in s.tcb
                 && s.current in s.tcb && s' == Scheduled(s, h);
        ScheduleRotates(top, s, h, ring);
      }
    }
  }

  /** n ticks lead the timers from s to s' and call those timers. */
  ghost predicate Ran(s: M.State, cfg: M.Config, n: nat, s': M.State, fired: seq<Timers.Stamp>) {
    M.RunInv(s, cfg) && var r := M.Run(s, cfg, M.Ticking(n)); s' == r.0 && fired == Timers.Stamps(r.1)
  }

  lemma RanOne(s: M.State, cfg: M.Config)
    requires M.RunInv(s, cfg)
    ensures var r := M.Step(s, cfg, M.Op.Tick); Ran(s, cfg, 1, r.0, Timers.Stamps(r.1))
  {
    var r := M.Step(s, cfg, M.Op.Tick);
    assert M.Ticking(1)[1..] == [] && M.Ticking(1)[0] == M.Op.Tick;
    hide M.RunInv, M.Step;
    M.RunForm(s, cfg, M.Ticking(1));
    assert r.1 + [] == r.1;
  }

  lemma RanMore(s: M.State, cfg: M.Config, n: nat, s1: M.State, fired1: seq<Timers.Stamp>, s2: M.State,
                fired2: seq<Timers.Stamp>)
    requires n > 0 && Ran(s, cfg, 1, s1, fired1) && Ran(s1, cfg, n - 1, s2, fired2)
    ensures Ran(s, cfg, n, s2, fired1 + fired2)
  {
    assert M.Ticking(n) == M.Ticking(1) + M.Ticking(n - 1);
    hide M.RunInv, M.Run, M.Ticking, Timers.Stamps;
    M.RunConcat(s, cfg, M.Ticking(1), M.Ticking(n - 1));
    Timers.StampsConcat(M.Run(s, cfg, M.Ticking(1)).1, M.Run(s1, cfg, M.Ticking(n - 1)).1);
  }

  lemma RanNone(s: M.State, cfg: M.Config)
    requires M.RunInv(s, cfg)
    ensures Ran(s, cfg, 0, s, [])
  {
  }

  /** n ticks of taking turns lead to the threads s' and slices remaining', and charge those threads. */
  ghost predicate Turned(turn: Turn, init: Slices, n: nat, s': Sys, remaining': Slices, charged: seq<Thread>) {
    && turn.ring != [] && charged == Charged(turn, init, n)
    && TopTier(s', SpentBy(turn, init, n).ring) && remaining' == SpentBy(turn, init, n).remaining
  }

  lemma TurnedMore(turn: Turn, init: Slices, n: nat, s': Sys, remaining': Slices, rest: seq<Thread>)
    requires turn.ring != [] && n > 0 && Turned(Spent(turn, init), init, n - 1, s', remaining', rest)
    ensures Turned(turn, init, n, s', remaining', [turn.ring[0]] + rest)
  {
    ChargedNext(turn, init, n);
    hide Spent, SpentBy, Charged, TopTier;
  }

  class Clock {
    const sched: Scheduler
    const timers: Timers.TimerList
    var initTick: Slices                 // thread->init_tick
    var remaining: Slices                // thread->remaining_tick

    /** Every thread has a slice. */
    ghost predicate Threads()
      reads this`initTick, this`remaining, sched
    {
      sched.Valid() && sched.tcb.Keys <= initTick.Keys && sched.tcb.Keys <= remaining.Keys
    }

    /** The timers miss no tick. */
    ghost predicate Ticking()
      reads timers
    {
      && timers.Core() && Timers.Known(timers.Cfg(), timers.timers)
      && M.RunInv(timers.Abs(), timers.Cfg()) && Timers.Live(timers.Abs(), timers.Cfg())
    }

    ghost predicate Valid()
      reads this, sched, timers
    {
      Threads() && Ticking()
    }

    constructor (sched: Scheduler, timers: Timers.TimerList)
      requires sched.Valid() && sched.tcb == map[] && timers.Core() && Timers.Known(timers.Cfg(), timers.timers)
      requires M.RunInv(timers.Abs(), timers.Cfg()) && Timers.Live(timers.Abs(), timers.Cfg())
      ensures Valid() && this.sched == sched && this.timers == timers && initTick == remaining == map[]
    {
      this.sched, this.timers, initTick, remaining := sched, timers, map[], map[];
    }

    /** _rt_thread_init, with its time slice. */
    method ThreadInit(t: Thread, priority: int, tick: u32)
      requires Valid() && t != 0 && t !in sched.tcb && 0 <= priority <= sched.top
      modifies this, sched`tcb
      ensures Valid() && initTick == old(initTick)[t := tick] && remaining == old(remaining)[t := tick]
      ensures sched.tcb == old(sched.tcb)[t := Tcb(Init, priority, priority, 0, 0, 0)]
    {
      sched.ThreadInit(t, priority);
      initTick, remaining := initTick[t := tick], remaining[t := tick];
    }

    /** The time-slice part of rt_tick_increase: the last tick of a slice yields, which is rt_schedule. */
    method SpendSlice()
      requires Threads() && sched.current != 0
      modifies this`remaining, sched`queues, sched`readyGroup, sched`readyTable, sched`tcb, sched`current
      ensures Threads() && sched.current != 0
      ensures remaining == AfterTick(old(remaining), initTick, old(sched.current))
      ensures Yielded(old(sched.State()), old(remaining), sched.lockNest, sched.State())
    {
      CurrentKnown();
      hide SysOk, BitsOk, TopRuns, Scheduled, Chosen, IsFirst, Idle;
      var thread := sched.current;
      ghost var s := sched.State();
      var left := (remaining[thread] - 1) % WORD;
      LastTick(remaining[thread]);
      assert remaining[thread := left][thread := initTick[thread]] == remaining[thread := initTick[thread]];
      remaining := remaining[thread := left];
      if left == 0 {
        remaining := remaining[thread := initTick[thread]];
        var h := sched.Schedule();
        if sched.lockNest == 0 {
          ScheduleChosen(sched.top, s, sched.State(), h);
        }
      }
    }

    lemma CurrentKnown()
      requires Threads() && sched.current != 0
      ensures sched.current in sched.tcb && sched.current in remaining && sched.current in initTick
    {
    }

    /** rt_tick_increase: the timers called, and when. */
    method TickIncrease() returns (fired: seq<Timers.Stamp>)
      requires Threads() && Ticking() && sched.current != 0
      modifies this`remaining, sched`queues, sched`readyGroup, sched`readyTable, sched`tcb, sched`current,
               timers`next, timers`prev, timers`randomNr, timers`order, timers`height, timers`timeoutTick, timers`due,
               timers`since, timers`ticket, timers`activated, timers`tick, timers`now
      ensures Threads() && Ticking() && sched.current != 0 && timers.tick == (old(timers.tick) + 1) % WORD
      ensures remaining == AfterTick(old(remaining), initTick, old(sched.current))
      ensures Yielded(old(sched.State()), old(remaining), sched.lockNest, sched.State())
      ensures Ran(old(timers.Abs()), timers.Cfg(), 1, timers.Abs(), fired)
    {
      hide *;
      ghost var before := timers.Abs();
      Advance();
      SpendSlice();
      fired := CheckTimers(before);
    }

    /** The tick counter has advanced since state `before`, and the timers have not been checked yet. */
    ghost predicate Advanced(before: M.State)
      reads timers
    {
      && timers.Core() && Timers.Known(timers.Cfg(), timers.timers)
      && M.RunInv(before, timers.Cfg()) && Timers.Live(before, timers.Cfg())
      && timers.Abs() == before.(now := before.now + 1)
    }

    method Advance()
      requires Ticking()
      modifies timers`tick, timers`now
      ensures Advanced(old(timers.Abs())) && timers.tick == (old(timers.tick) + 1) % WORD
    {
      hide M.RunInv, Timers.Live, Timers.Known;
      timers.AdvanceTick();
    }

    /** The call of rt_timer_check. */
    method CheckTimers(ghost before: M.State) returns (fired: seq<Timers.Stamp>)
      requires Advanced(before)
      modifies timers`next, timers`prev, timers`randomNr, timers`order, timers`height, timers`timeoutTick, timers`due,
               timers`since, timers`ticket, timers`activated
      ensures Ticking() && Ran(before, timers.Cfg(), 1, timers.Abs(), fired)
    {
      ghost var cfg := timers.Cfg();
      Timers.LiveKeeps(before, cfg, M.Op.Tick);
      M.StepKeeps(before, cfg, M.Op.Tick);
      Timers.LiveWindows(before, cfg, 0);
      TickForm(before, cfg);
      RanOne(before, cfg);
      hide M.RunInv, M.Good, M.DelaysPositive, M.Checked, M.Step, Timers.Live, Timers.Known, Timers.CheckWindow,
           Timers.Stamps, Ran;
      fired := timers.Check();
    }

    /** The scheduler is unlocked, and the threads of this ring take turns. */
    ghost predicate Taking(ring: seq<Thread>)
      reads this`initTick, this`remaining, sched, timers
    {
      Threads() && Ticking() && sched.lockNest == 0 && TopTier(sched.State(), ring)
    }

    /** n ticks have led here from a turn and a state of the timers. */
    ghost predicate Reached(turn: Turn, a: M.State, n: nat, charged: seq<Thread>, fired: seq<Timers.Stamp>)
      reads this`initTick, this`remaining, sched, timers
    {
      && Threads() && Ticking()
      && Turned(turn, initTick, n, sched.State(), remaining, charged) && Ran(a, timers.Cfg(), n, timers.Abs(), fired)
    }

    lemma ReachedNone(ring: seq<Thread>)
      requires Taking(ring)
      ensures Reached(Turn(ring, remaining), timers.Abs(), 0, [], [])
    {
      TurnSome(ring);
      SystemOk();
      RanNone(timers.Abs(), timers.Cfg());
      assert SpentBy(Turn(ring, remaining), initTick, 0) == Turn(ring, remaining);
      assert Charged(Turn(ring, remaining), initTick, 0) == [];
      hide Threads, Ticking, TopTier, Ran;
    }

    lemma ReachedMore(turn: Turn, n: nat, a: M.State, a1: M.State, fired: seq<Timers.Stamp>,
                      rest: seq<Thread>, restFired: seq<Timers.Stamp>)
      requires turn.ring != [] && n > 0 && Ran(a, timers.Cfg(), 1, a1, fired)
      requires Reached(Spent(turn, initTick), a1, n - 1, rest, restFired)
      ensures Reached(turn, a, n, [turn.ring[0]] + rest, fired + restFired)
    {
      hide Threads, Ticking, Turned, Ran, Spent;
      RanMore(a, timers.Cfg(), n, a1, fired, timers.Abs(), restFired);
      TurnedMore(turn, initTick, n, sched.State(), remaining, rest);
    }

    /** n ticks in which nobody becomes ready or blocks: who is charged at each, and which timers are called when. */
    method Ticks(n: nat, ghost ring: seq<Thread>) returns (charged: seq<Thread>, fired: seq<Timers.Stamp>)
      requires Taking(ring)
      modifies this`remaining, sched, timers
      ensures timers.Cfg() == old(timers.Cfg())
      ensures Reached(Turn(ring, old(remaining)), old(timers.Abs()), n, charged, fired)
      decreases n
    {
      if n == 0 {
        ReachedNone(ring);
        return [], [];
      }
      hide *;
      ghost var a, turn := timers.Abs(), Turn(ring, remaining);
      var thread := sched.current;
      fired := OneTick(ring);
      ghost var a1 := timers.Abs();
      var rest, restFired := Ticks(n - 1, Spent(turn, initTick).ring);
      ReachedMore(turn, n, a, a1, fired, rest, restFired);
      charged, fired := [thread] + rest, fired + restFired;
    }

    method OneTick(ghost ring: seq<Thread>) returns (fired: seq<Timers.Stamp>)
      requires Taking(ring)
      modifies this`remaining, sched, timers
      ensures ring != [] && ring[0] == old(sched.current)
      ensures Taking(Spent(Turn(ring, old(remaining)), initTick).ring)
      ensures remaining == Spent(Turn(ring, old(remaining)), initTick).remaining
      ensures Ran(old(timers.Abs()), timers.Cfg(), 1, timers.Abs(), fired) && timers.Cfg() == old(timers.Cfg())
    {
      TurnSome(ring);
      SystemOk();
      ghost var s, r := sched.State(), remaining;
      assert s.current == sched.current;
      hide Threads, Ticking, Ran, TopTier, Yielded, Spent, AfterTick, SysOk, M.RunInv, Timers.Live, Timers.Known;
      fired := TickIncrease();
      TickTurns(sched.top, s, r, initTick, sched.State(), ring);
    }

    lemma TurnSome(ring: seq<Thread>)
      requires Threads() && TopTier(sched.State(), ring)
      ensures ring != [] && ring[0] == sched.current && sched.current != 0
    {
      TierSome(sched.top, sched.State(), ring);
    }

    lemma SystemOk()
      requires Threads() && Ticking()
      ensures SysOk(sched.top, sched.State()) && M.RunInv(timers.Abs(), timers.Cfg())
    {
    }
  }

  lemma TickForm(s: M.State, cfg: M.Config)
    requires M.RunInv(s, cfg)
    ensures var s1 := s.(now := s.now + 1);
            M.Good(s1) && M.DelaysPositive(cfg) && M.Step(s, cfg, M.Op.Tick) == M.Checked(s1, cfg)
  {
    M.GoodAnyway(s, s.now + 1, s.flags);
  }

  lemma LastTick(r: u32)
    ensures (r - 1) % WORD == 0 <==> r == 1
  {
  }

  lemma ScheduleChosen(top: int, s: Sys, s': Sys, h: int)
    requires if Idle(s.queues) then s' == s
             else IsFirst(s.queues, h) && QueueAt(s.queues, h) != [] && QueueAt(s.queues, h)[0] in s.tcb
                  && s.current in s.tcb && s' == Scheduled(s, h)
    ensures Chosen(s, s') && s'.tcb.Keys == s.tcb.Keys && (s.current != 0 && SysOk(top, s) ==> s'.current != 0)
  {
  }
}
