/** What the timer list means, without its skip-list rows and without 32-bit wrap-around.

    `order` is the bottom row, `due` the deadline of each timer on an unbounded clock, `now` that clock, `since` the
    ticket of each timer's last start, `flags` the timers marked ACTIVATED.  A callback is a sequence of starts and
    stops.  Module Timers proves that timer.c refines these functions; here are the properties of whole runs. */
module TimerModel {
  import opened Seqs

  /** Deadlines, or periods, by timer. */
  type Ticks = map<int, int>

  function At(m: Ticks, t: int): int { if t in m then m[t] else 0 }

  ghost predicate Sorted(order: seq<int>, due: Ticks) {
    forall i, j :: 0 <= i < j < |order| ==> At(due, order[i]) <= At(due, order[j])
  }

  /** The plain scan: how many timers at the front are due no later than d. */
  function Scan(order: seq<int>, due: Ticks, d: int): (p: nat)
    ensures p <= |order|
    ensures forall i :: 0 <= i < p ==> At(due, order[i]) <= d
    ensures p < |order| ==> At(due, order[p]) > d
  {
    if order == [] || At(due, order[0]) > d then 0 else 1 + Scan(order[1..], due, d)
  }

  /** Put t where the plain scan stops: behind all earlier or equal deadlines. */
  function InsertSorted(order: seq<int>, due: Ticks, t: int): seq<int> {
    var p := Scan(order, due, At(due, t));
    order[..p] + [t] + order[p..]
  }

  lemma {:induction false} MinusKeeps(order: seq<int>, due: Ticks, t: int)
    requires Sorted(order, due) && NoRepeats(order)
    ensures Sorted(Minus(order, t), due) && NoRepeats(Minus(order, t))
  {
    MinusNoRepeats(order, t);
    if order != [] {
      var rest := Minus(order[1..], t);
      MinusKeeps(order[1..], due, t);
      MinusMembers(order[1..], t);
      forall k | 0 <= k < |rest| ensures At(due, order[0]) <= At(due, rest[k]) {
        assert rest[k] in rest;
      }
      hide NoRepeats, At;
    }
  }

  lemma InsertSpot(order: seq<int>, due: Ticks, t: int)
    ensures var p, o := Scan(order, due, At(due, t)), InsertSorted(order, due, t);
            && |o| == |order| + 1 && o[p] == t
            && forall i {:trigger o[i]} :: 0 <= i < |o| && i != p ==> o[i] == order[if i < p then i else i - 1]
  {
  }

  /** Insertion keeps the list sorted; whoever stands behind the newcomer is due later, so it goes behind every tie. */
  lemma InsertKeeps(order: seq<int>, due: Ticks, t: int)
    requires Sorted(order, due) && NoRepeats(order) && t !in order
    ensures var o := InsertSorted(order, due, t);
            && Sorted(o, due) && NoRepeats(o) && |o| == |order| + 1
            && (forall u :: u in o <==> u in order || u == t)
            && (forall i, j :: 0 <= i < j < |o| && o[i] == t ==> At(due, t) < At(due, o[j]))
  {
    var p := Scan(order, due, At(due, t));
    var o := InsertSorted(order, due, t);
    InsertMembers(order, due, t);
    InsertSpot(order, due, t);
    BehindScan(order, due, At(due, t));
    hide InsertSorted, Scan, At, Sorted, NoRepeats;
    SpotKeeps(order, o, due, t, p);
  }

  lemma SpotKeeps(order: seq<int>, o: seq<int>, due: Ticks, t: int, p: nat)
    requires Sorted(order, due) && NoRepeats(order) && t !in order
    requires p <= |order| && |o| == |order| + 1 && o[p] == t
    requires forall i {:trigger o[i]} :: 0 <= i < |o| && i != p ==> o[i] == order[if i < p then i else i - 1]
    requires forall i {:trigger order[i]} :: 0 <= i < p ==> At(due, order[i]) <= At(due, t)
    requires forall j {:trigger order[j]} :: p <= j < |order| ==> At(due, order[j]) > At(due, t)
    ensures Sorted(o, due) && NoRepeats(o)
    ensures forall i, j :: 0 <= i < j < |o| && o[i] == t ==> At(due, t) < At(due, o[j])
  {
    hide At;
    assert forall i :: 0 <= i < |order| ==> order[i] in order;
  }

  lemma InsertMembers(order: seq<int>, due: Ticks, t: int)
    ensures forall u :: u in InsertSorted(order, due, t) <==> u in order || u == t
  {
    var p := Scan(order, due, At(due, t));
    assert order == order[..p] + order[p..];
  }

  lemma BehindScan(order: seq<int>, due: Ticks, d: int)
    requires Sorted(order, due)
    ensures forall j {:trigger order[j]} :: Scan(order, due, d) <= j < |order| ==> At(due, order[j]) > d
  {
  }

  /** What a callback does to the timer list. */
  datatype Call = Start(timer: int) | Stop(timer: int)

  /** init_tick, the PERIODIC flag and the callback of every timer. */
  datatype Config = Config(init: Ticks, periodic: set<int>, calls: map<int, seq<Call>>)

  datatype State = State(order: seq<int>, due: Ticks, since: Ticks, ticket: int, flags: set<int>, now: int)

  function CallsOf(cfg: Config, t: int): seq<Call> { if t in cfg.calls then cfg.calls[t] else [] }

  /** rt_timer_start: off the list, deadline now + init_tick, back on behind all earlier or equal deadlines, flag
      set. */
  function Started(s: State, cfg: Config, t: int): State {
    var due := s.due[t := s.now + At(cfg.init, t)];
    State(InsertSorted(Minus(s.order, t), due, t), due, s.since[t := s.ticket], s.ticket + 1, s.flags + {t}, s.now)
  }

  /** rt_timer_stop: refused, with -RT_ERROR, if the flag is clear. */
  function Stopped(s: State, t: int): State {
    if t in s.flags then s.(order := Minus(s.order, t), flags := s.flags - {t}) else s
  }

  function Called(s: State, cfg: Config, c: Call): State {
    match c
    case Start(t) => Started(s, cfg, t)
    case Stop(t) => Stopped(s, t)
  }

  /** A callback, call by call. */
  function CalledAll(s: State, cfg: Config, cs: seq<Call>): State {
    if cs == [] then s else Called(CalledAll(s, cfg, cs[..|cs| - 1]), cfg, cs[|cs| - 1])
  }

  /** The last of these calls that names t is a start, or a stop. */
  predicate EndsStarted(cs: seq<Call>, t: int) {
    cs != [] && var c := cs[|cs| - 1]; if c.timer == t then c.Start? else EndsStarted(cs[..|cs| - 1], t)
  }

  predicate EndsStopped(cs: seq<Call>, t: int) {
    cs != [] && var c := cs[|cs| - 1]; if c.timer == t then c.Stop? else EndsStopped(cs[..|cs| - 1], t)
  }

  /** The check loop or a callback may start v. */
  ghost predicate Startable(cfg: Config, v: int) {
    v in cfg.periodic || exists u, k {:trigger CallsOf(cfg, u)[k]} ::
                           0 <= k < |CallsOf(cfg, u)| && CallsOf(cfg, u)[k] == Start(v)
  }

  /** No callback names t. */
  ghost predicate Untouched(cfg: Config, t: int) {
    forall u, k {:trigger CallsOf(cfg, u)[k]} :: 0 <= k < |CallsOf(cfg, u)| ==> CallsOf(cfg, u)[k].timer != t
  }

  function DueCount(order: seq<int>, due: Ticks, now: int): nat {
    if order == [] then 0 else (if At(due, order[0]) <= now then 1 else 0) + DueCount(order[1..], due, now)
  }

  /** Whatever is started during a check is due after it. */
  ghost predicate DelaysPositive(cfg: Config) {
    forall t {:trigger Startable(cfg, t)} :: Startable(cfg, t) ==> At(cfg.init, t) >= 1
  }

  /** One round of the check loop: the first timer leaves the list, its callback runs, and then it is started again if
      it is periodic and still flagged, else its flag is cleared. */
  function Fire(s: State, cfg: Config): State
    requires s.order != []
  {
    var t := s.order[0];
    var s' := CalledAll(s.(order := s.order[1..]), cfg, CallsOf(cfg, t));
    if t in cfg.periodic && t in s'.flags then Started(s', cfg, t) else s'.(flags := s'.flags - {t})
  }

  lemma {:induction false} DueCountConcat(a: seq<int>, b: seq<int>, due: Ticks, now: int)
    ensures DueCount(a + b, due, now) == DueCount(a, due, now) + DueCount(b, due, now)
  {
    if a == [] {
      assert a + b == b;
    } else {
      assert (a + b)[1..] == a[1..] + b;
      DueCountConcat(a[1..], b, due, now);
    }
  }

  lemma {:induction false} DueCountSame(a: seq<int>, due: Ticks, due': Ticks, now: int)
    requires forall t :: t in a ==> At(due, t) == At(due', t)
    ensures DueCount(a, due, now) == DueCount(a, due', now)
  {
    if a != [] {
      DueCountSame(a[1..], due, due', now);
    }
  }

  lemma InsertCount(order: seq<int>, due: Ticks, t: int, now: int)
    ensures DueCount(InsertSorted(order, due, t), due, now) == DueCount(order, due, now) + if At(due, t) <= now then 1
            else 0
  {
    var p := Scan(order, due, At(due, t));
    var x, z := order[..p], order[p..];
    assert order == x + z;
    DueCountConcat(x + [t], z, due, now);
    DueCountConcat(x, [t], due, now);
    DueCountConcat(x, z, due, now);
    assert [t][1..] == [];
  }

  lemma {:induction false} MinusCount(order: seq<int>, due: Ticks, t: int, now: int)
    ensures DueCount(Minus(order, t), due, now) <= DueCount(order, due, now)
  {
    if order != [] {
      MinusCount(order[1..], due, t, now);
      var head := if order[0] == t then [] else [order[0]];
      assert Minus(order, t) == head + Minus(order[1..], t);
      DueCountConcat(head, Minus(order[1..], t), due, now);
    }
  }

  // What starting and stopping do, then what a callback does.

  /** The list is in shape. */
  ghost predicate Good(s: State) {
    NoRepeats(s.order) && Sorted(s.order, s.due)
  }

  lemma StartKeeps(s: State, cfg: Config, t: int)
    requires Good(s)
    ensures Good(Started(s, cfg, t)) && Started(s, cfg, t).now == s.now && Started(s, cfg, t).flags == s.flags + {t}
    ensures forall u :: u in Started(s, cfg, t).order <==> u in s.order || u == t
    ensures forall u :: At(Started(s, cfg, t).due, u) == if u == t then s.now + At(cfg.init, t) else At(s.due, u)
    ensures forall u :: At(Started(s, cfg, t).since, u) == if u == t then s.ticket else At(s.since, u)
  {
    hide Sorted, NoRepeats, InsertSorted, Minus;
    var due := s.due[t := s.now + At(cfg.init, t)];
    MinusKeeps(s.order, s.due, t);
    MinusMembers(s.order, t);
    var rest := Minus(s.order, t);
    SortedSame(rest, s.due, due);
    InsertKeeps(rest, due, t);
  }

  lemma StopKeeps(s: State, t: int)
    requires Good(s)
    ensures Good(Stopped(s, t)) && forall u :: u in Stopped(s, t).order <==> u in s.order && !(u == t && t in s.flags)
  {
    hide Sorted, NoRepeats, Minus;
    MinusKeeps(s.order, s.due, t);
    MinusMembers(s.order, t);
  }

  lemma SortedSame(order: seq<int>, due: Ticks, due': Ticks)
    requires Sorted(order, due) && forall u :: u in order ==> At(due', u) == At(due, u)
    ensures Sorted(order, due')
  {
  }

  /** Started timers are not due in this check. */
  lemma StartCount(s: State, cfg: Config, t: int)
    requires At(cfg.init, t) >= 1
    ensures DueCount(Started(s, cfg, t).order, Started(s, cfg, t).due, s.now) <= DueCount(s.order, s.due, s.now)
  {
    hide InsertSorted, DueCount, Minus;
    var due := s.due[t := s.now + At(cfg.init, t)];
    MinusCount(s.order, s.due, t, s.now);
    MinusMembers(s.order, t);
    DueCountSame(Minus(s.order, t), s.due, due, s.now);
    InsertCount(Minus(s.order, t), due, t, s.now);
  }

  /** All starts among these calls are of timers the configuration knows to be startable. */
  ghost predicate CallsFine(cfg: Config, cs: seq<Call>) {
    forall k {:trigger cs[k]} :: 0 <= k < |cs| && cs[k].Start? ==> Startable(cfg, cs[k].timer)
  }

  lemma CallsOfFine(cfg: Config, t: int)
    ensures CallsFine(cfg, CallsOf(cfg, t))
  {
    var cs := CallsOf(cfg, t);
    forall k {:trigger cs[k]} | 0 <= k < |cs| && cs[k].Start? ensures Startable(cfg, cs[k].timer) {
      assert CallsOf(cfg, t)[k] == Start(cs[k].timer);
    }
  }

  /** A callback keeps the list in shape and makes nothing due. */
  lemma {:induction false} CallsKeep(s: State, cfg: Config, cs: seq<Call>)
    requires Good(s) && CallsFine(cfg, cs) && DelaysPositive(cfg)
    ensures var s' := CalledAll(s, cfg, cs);
            && Good(s') && s'.now == s.now
            && DueCount(s'.order, s'.due, s.now) <= DueCount(s.order, s.due, s.now)
            && forall u :: u in s'.order && At(s'.due, u) <= s.now ==>
                 u in s.order && At(s'.due, u) == At(s.due, u) && At(s'.since, u) == At(s.since, u)
  {
    hide Good, DueCount, Started, Stopped, At, Startable;
    if cs != [] {
      var cs1, c := cs[..|cs| - 1], cs[|cs| - 1];
      CallsKeep(s, cfg, cs1);
      CallKeeps(CalledAll(s, cfg, cs1), cfg, c);
    }
  }

  lemma CallKeeps(s: State, cfg: Config, c: Call)
    requires Good(s) && DelaysPositive(cfg) && (c.Start? ==> Startable(cfg, c.timer))
    ensures var s' := Called(s, cfg, c);
            && Good(s') && s'.now == s.now
            && DueCount(s'.order, s'.due, s.now) <= DueCount(s.order, s.due, s.now)
            && forall u :: u in s'.order && At(s'.due, u) <= s.now ==>
                 u in s.order && At(s'.due, u) == At(s.due, u) && At(s'.since, u) == At(s.since, u)
  {
    hide Good, DueCount, Started, InsertSorted, Minus, Startable;
    match c
    case Start(t) =>
      StartKeeps(s, cfg, t);
      StartCount(s, cfg, t);
    case Stop(t) =>
      StopKeeps(s, t);
      MinusCount(s.order, s.due, t, s.now);
  }

  /** A timer that no call names stays as it is. */
  lemma {:induction false} CallsOther(s: State, cfg: Config, cs: seq<Call>, u: int)
    requires Good(s) && CallsFine(cfg, cs) && DelaysPositive(cfg)
    requires forall k {:trigger cs[k]} :: 0 <= k < |cs| ==> cs[k].timer != u
    ensures var s' := CalledAll(s, cfg, cs);
            && (u in s'.order <==> u in s.order) && (u in s'.flags <==> u in s.flags)
            && At(s'.due, u) == At(s.due, u) && At(s'.since, u) == At(s.since, u)
  {
    hide Good, Started, Minus, At, Startable;
    if cs != [] {
      var cs1, c := cs[..|cs| - 1], cs[|cs| - 1];
      CallsKeep(s, cfg, cs1);
      CallsOther(s, cfg, cs1, u);
      var s1 := CalledAll(s, cfg, cs1);
      match c
      case Start(t) => StartKeeps(s1, cfg, t);
      case Stop(t) => StopKeeps(s1, t);
    }
  }

  lemma GoodAnyway(s: State, now: int, flags: set<int>)
    ensures Good(s.(now := now, flags := flags)) == Good(s)
    ensures TicketsOk(s.(now := now, flags := flags)) == TicketsOk(s)
  {
  }

  /** Taking the first timer off. */
  lemma TailKeeps(s: State)
    requires Good(s) && s.order != []
    ensures Good(s.(order := s.order[1..])) && s.order[0] !in s.order[1..]
    ensures forall u :: u in s.order <==> u == s.order[0] || u in s.order[1..]
  {
    HeadOnce(s.order);
  }

  /** A round of the check loop, in terms of the state its callback leaves. */
  lemma FireForm(s: State, cfg: Config)
    requires s.order != []
    ensures var t := s.order[0];
            var s1 := CalledAll(s.(order := s.order[1..]), cfg, CallsOf(cfg, t));
            && CallsFine(cfg, CallsOf(cfg, t)) && (t in cfg.periodic ==> Startable(cfg, t))
            && Fire(s, cfg) == if t in cfg.periodic && t in s1.flags then Called(s1, cfg, Start(t))
                               else s1.(flags := s1.flags - {t})
  {
    hide CallsFine, CalledAll;
    CallsOfFine(cfg, s.order[0]);
  }

  lemma DueHead(s: State)
    requires s.order != [] && At(s.due, s.order[0]) <= s.now
    ensures DueCount(s.order, s.due, s.now) == 1 + DueCount(s.order[1..], s.due, s.now)
  {
  }

  /** Firing keeps the list in shape and is progress: nothing that is started is due again in the same check. */
  lemma FireKeeps(s: State, cfg: Config)
    requires s.order != [] && At(s.due, s.order[0]) <= s.now && Good(s) && DelaysPositive(cfg)
    ensures var s' := Fire(s, cfg);
            && Good(s') && s'.now == s.now
            && DueCount(s'.order, s'.due, s.now) < DueCount(s.order, s.due, s.now)
            && forall u :: u in s'.order && At(s'.due, u) <= s.now ==>
                 u in s.order[1..] && At(s'.due, u) == At(s.due, u) && At(s'.since, u) == At(s.since, u)
  {
    var t, s0 := s.order[0], s.(order := s.order[1..]);
    var s1 := CalledAll(s0, cfg, CallsOf(cfg, t));
    hide *;
    FireForm(s, cfg);
    DueHead(s);
    TailKeeps(s);
    GoodAnyway(s1, s1.now, s1.flags - {t});
    CallsKeep(s0, cfg, CallsOf(cfg, t));
    if t in cfg.periodic && t in s1.flags {
      CallKeeps(s1, cfg, Start(t));
    }
  }

  lemma CalledStart(s: State, cfg: Config, t: int)
    ensures Called(s, cfg, Start(t)) == Started(s, cfg, t)
  {
  }

  /** A callback does nothing to a timer that no callback names. */
  lemma CallbackOther(s: State, cfg: Config, u: int)
    requires s.order != [] && Good(s) && DelaysPositive(cfg) && Untouched(cfg, u)
    ensures var s' := CalledAll(s.(order := s.order[1..]), cfg, CallsOf(cfg, s.order[0]));
            && Good(s') && s'.now == s.now && (u in s'.order <==> u in s.order && u != s.order[0])
            && (u in s'.flags <==> u in s.flags) && At(s'.due, u) == At(s.due, u)
  {
    var t, cs, s0 := s.order[0], CallsOf(cfg, s.order[0]), s.(order := s.order[1..]);
    TailKeeps(s);
    CallsOfFine(cfg, t);
    assert forall k {:trigger cs[k]} :: 0 <= k < |cs| ==> cs[k].timer != u by {
      assert forall k :: 0 <= k < |cs| ==> cs[k] == CallsOf(cfg, t)[k];
    }
    hide *;
    CallsKeep(s0, cfg, cs);
    CallsOther(s0, cfg, cs, u);
  }

  /** What a round does to a timer that no callback names. */
  lemma FireOther(s: State, cfg: Config, u: int)
    requires s.order != [] && Good(s) && DelaysPositive(cfg) && Untouched(cfg, u)
    requires u in s.order && u in cfg.periodic ==> u in s.flags
    ensures var t, s' := s.order[0], Fire(s, cfg);
            && (u in s'.order <==> u in s.order && (u != t || u in cfg.periodic))
            && (u in s'.order && u in cfg.periodic ==> u in s'.flags)
            && (u in s'.order ==> At(s'.due, u) == if u == t then s.now + At(cfg.init, u) else At(s.due, u))
  {
    var t, s1 := s.order[0], CalledAll(s.(order := s.order[1..]), cfg, CallsOf(cfg, s.order[0]));
    CallbackOther(s, cfg, u);
    FireForm(s, cfg);
    CalledStart(s1, cfg, t);
    hide *;
    StartKeeps(s1, cfg, t);
  }

  /** One entry per callback run: which timer, when, and with which deadline and start ticket. */
  datatype Firing = Firing(timer: int, time: int, due: int, since: int)

  function Names(log: seq<Firing>): (r: seq<int>)
    ensures |r| == |log|
  {
    seq(|log|, i requires 0 <= i < |log| => log[i].timer)
  }

  /** rt_timer_check: fire from the front until the first timer is not due. */
  function Checked(s: State, cfg: Config): (r: (State, seq<Firing>))
    requires Good(s) && DelaysPositive(cfg)
    decreases DueCount(s.order, s.due, s.now)
  {
    if s.order == [] || At(s.due, s.order[0]) > s.now then (s, [])
    else
      FireKeeps(s, cfg);
      var t := s.order[0];
      var r := Checked(Fire(s, cfg), cfg);
      (r.0, [Firing(t, s.now, At(s.due, t), At(s.since, t))] + r.1)
  }

  /** Without callbacks that touch timers, the check fires exactly the timers that were due, front to back. */
  lemma {:induction false} CheckFiresDue(s: State, cfg: Config)
    requires Good(s) && DelaysPositive(cfg) && forall t {:trigger CallsOf(cfg, t)} :: CallsOf(cfg, t) == []
    ensures Names(Checked(s, cfg).1) == s.order[..Scan(s.order, s.due, s.now)]
    decreases DueCount(s.order, s.due, s.now)
  {
    if s.order != [] && At(s.due, s.order[0]) <= s.now {
      FireKeeps(s, cfg);
      CheckFiresDue(Fire(s, cfg), cfg);
      FireScan(s, cfg);
      CheckedForm(s, cfg);
      assert CallsOf(cfg, s.order[0]) == [];
      ScanForm(s.order, s.due, s.now);
      hide Checked, Scan, Fire, Good, DelaysPositive;
      NamesCons(Firing(s.order[0], s.now, At(s.due, s.order[0]), At(s.since, s.order[0])),
                Checked(Fire(s, cfg), cfg).1);
    }
  }

  lemma NamesCons(e: Firing, log: seq<Firing>)
    ensures Names([e] + log) == [e.timer] + Names(log)
  {
  }

  lemma ScanForm(order: seq<int>, due: Ticks, d: int)
    requires order != [] && At(due, order[0]) <= d
    ensures order[..Scan(order, due, d)] == [order[0]] + order[1..][..Scan(order[1..], due, d)]
  {
  }

  /** One round of the check loop. */
  lemma CheckedForm(s: State, cfg: Config)
    requires Good(s) && DelaysPositive(cfg)
    ensures var fire := s.order != [] && At(s.due, s.order[0]) <= s.now;
            && (!fire ==> Checked(s, cfg) == (s, []))
            && (fire ==>
                 && Good(Fire(s, cfg)) && Fire(s, cfg).now == s.now
                 && DueCount(Fire(s, cfg).order, Fire(s, cfg).due, s.now) < DueCount(s.order, s.due, s.now)
                 && Checked(s, cfg).0 == Checked(Fire(s, cfg), cfg).0
                 && Checked(s, cfg).1 == [Firing(s.order[0], s.now, At(s.due, s.order[0]), At(s.since, s.order[0]))]
                                         + Checked(Fire(s, cfg), cfg).1)
  {
    if s.order != [] && At(s.due, s.order[0]) <= s.now {
      FireKeeps(s, cfg);
    }
  }

  /** Such a round takes one timer off the due prefix and changes nothing else in it. */
  lemma FireScan(s: State, cfg: Config)
    requires s.order != [] && At(s.due, s.order[0]) <= s.now && Good(s) && DelaysPositive(cfg)
    requires CallsOf(cfg, s.order[0]) == []
    ensures var s' := Fire(s, cfg);
            s'.order[..Scan(s'.order, s'.due, s'.now)] == s.order[1..][..Scan(s.order[1..], s.due, s.now)]
  {
    var t, s0 := s.order[0], s.(order := s.order[1..]);
    TailKeeps(s);
    assert t in cfg.periodic ==> Startable(cfg, t) && At(cfg.init, t) >= 1;
    assert Fire(s, cfg) == if t in cfg.periodic && t in s0.flags then Started(s0, cfg, t)
           else s0.(flags := s0.flags - {t});
    if t in cfg.periodic && t in s0.flags {
      StartScan(s0, cfg, t);
    }
  }

  lemma StartScan(s: State, cfg: Config, t: int)
    requires t !in s.order && At(cfg.init, t) >= 1
    ensures var s' := Started(s, cfg, t);
            s'.order[..Scan(s'.order, s'.due, s'.now)] == s.order[..Scan(s.order, s.due, s.now)]
  {
    MinusMembers(s.order, t);
    var due := s.due[t := s.now + At(cfg.init, t)];
    hide Scan, InsertSorted, Minus;
    ScanSame(s.order, s.due, due, s.now);
    InsertLater(s.order, due, t, s.now);
  }

  lemma {:induction false} ScanSame(order: seq<int>, due: Ticks, due': Ticks, d: int)
    requires forall u :: u in order ==> At(due', u) == At(due, u)
    ensures Scan(order, due', d) == Scan(order, due, d)
  {
    if order != [] {
      ScanSame(order[1..], due, due', d);
    }
  }

  lemma {:induction false} ScanMonotone(order: seq<int>, due: Ticks, d: int, d': int)
    requires d <= d'
    ensures Scan(order, due, d) <= Scan(order, due, d')
  {
    if order != [] {
      ScanMonotone(order[1..], due, d, d');
    }
  }

  lemma InsertLater(order: seq<int>, due: Ticks, t: int, d: int)
    requires At(due, t) > d
    ensures var o := InsertSorted(order, due, t);
            o[..Scan(o, due, d)] == order[..Scan(order, due, d)]
  {
    var o := InsertSorted(order, due, t);
    var p := Scan(order, due, At(due, t));
    ScanMonotone(order, due, d, At(due, t));
    ScanUnique(o, due, d, Scan(order, due, d));
  }

  lemma {:induction false} ScanUnique(order: seq<int>, due: Ticks, d: int, p: nat)
    requires p <= |order| && (forall i :: 0 <= i < p ==> At(due, order[i]) <= d)
    requires p < |order| ==> At(due, order[p]) > d
    ensures Scan(order, due, d) == p
  {
    if p > 0 {
      assert order[0] == order[..p][0];
      assert forall i :: 0 <= i < p - 1 ==> order[1..][i] == order[i + 1];
      ScanUnique(order[1..], due, d, p - 1);
    }
  }

  /** After the check the list is in shape and nothing due is on it. */
  lemma {:induction false} CheckDone(s: State, cfg: Config)
    requires Good(s) && DelaysPositive(cfg)
    ensures var s' := Checked(s, cfg).0;
            Good(s') && s'.now == s.now && forall u :: u in s'.order ==> At(s'.due, u) > s.now
    decreases DueCount(s.order, s.due, s.now)
  {
    if s.order != [] && At(s.due, s.order[0]) <= s.now {
      FireKeeps(s, cfg);
      CheckDone(Fire(s, cfg), cfg);
    } else {
      forall u | u in s.order ensures At(s.due, u) > s.now {
        var k :| 0 <= k < |s.order| && s.order[k] == u;
      }
    }
  }

  /** A timer that no callback names fires exactly once if it was due, else not at all; it is listed afterwards if it
      was not due or is periodic, and then due one period from now if it fired. */
  lemma {:induction false} CheckResult(s: State, cfg: Config, u: int)
    requires Good(s) && DelaysPositive(cfg) && Untouched(cfg, u)
    requires u in s.order && u in cfg.periodic ==> u in s.flags
    ensures var (s', log) := Checked(s, cfg);
            var hit := u in s.order && At(s.due, u) <= s.now;
            && TimesOf(log, u) == (if hit then [s.now] else [])
            && (u in s'.order <==> u in s.order && (!hit || u in cfg.periodic))
            && (u in s'.order ==> At(s'.due, u) == if hit then s.now + At(cfg.init, u) else At(s.due, u))
    decreases DueCount(s.order, s.due, s.now)
  {
    if s.order != [] && At(s.due, s.order[0]) <= s.now {
      FireKeeps(s, cfg);
      FireOther(s, cfg, u);
      CheckResult(Fire(s, cfg), cfg, u);
      var t := s.order[0];
      TimesOfCons(Firing(t, s.now, At(s.due, t), At(s.since, t)), Checked(Fire(s, cfg), cfg).1, u);
      assert u in cfg.periodic ==> Startable(cfg, u);
    } else {
      NotDue(s, u);
    }
  }

  lemma NotDue(s: State, u: int)
    requires Good(s) && (s.order == [] || At(s.due, s.order[0]) > s.now)
    ensures u in s.order ==> At(s.due, u) > s.now
  {
    if u in s.order {
      var k :| 0 <= k < |s.order| && s.order[k] == u;
    }
  }

  // The ACTIVATED flags.

  /** Listed periodic timers are flagged, so the check will start them again. */
  ghost predicate PeriodicFlagged(s: State, cfg: Config) {
    forall t {:trigger t in s.order} :: t in s.order && t in cfg.periodic ==> t in s.flags
  }

  lemma {:induction false} CallsFlagged(s: State, cfg: Config, cs: seq<Call>)
    requires Good(s) && CallsFine(cfg, cs) && DelaysPositive(cfg) && PeriodicFlagged(s, cfg)
    ensures PeriodicFlagged(CalledAll(s, cfg, cs), cfg)
  {
    hide Good, PeriodicFlagged, DelaysPositive, Called;
    if cs != [] {
      var cs1 := cs[..|cs| - 1];
      CallsKeep(s, cfg, cs1);
      CallsFlagged(s, cfg, cs1);
      CallFlagged(CalledAll(s, cfg, cs1), cfg, cs[|cs| - 1]);
    }
  }

  lemma CallFlagged(s: State, cfg: Config, c: Call)
    requires Good(s) && PeriodicFlagged(s, cfg)
    ensures PeriodicFlagged(Called(s, cfg, c), cfg)
  {
    hide Good, InsertSorted, Minus;
    match c
    case Start(t) => StartKeeps(s, cfg, t);
    case Stop(t) => StopKeeps(s, t);
  }

  lemma FireFlagged(s: State, cfg: Config)
    requires s.order != [] && Good(s) && DelaysPositive(cfg) && PeriodicFlagged(s, cfg)
    ensures PeriodicFlagged(Fire(s, cfg), cfg)
  {
    var t, s0 := s.order[0], s.(order := s.order[1..]);
    TailKeeps(s);
    assert PeriodicFlagged(s0, cfg);
    CallsOfFine(cfg, t);
    hide Good, DelaysPositive, CalledAll, InsertSorted, Minus;
    CallsKeep(s0, cfg, CallsOf(cfg, t));
    CallsFlagged(s0, cfg, CallsOf(cfg, t));
    StartKeeps(CalledAll(s0, cfg, CallsOf(cfg, t)), cfg, t);
  }

  lemma {:induction false} CheckFlagged(s: State, cfg: Config)
    requires Good(s) && DelaysPositive(cfg) && PeriodicFlagged(s, cfg)
    ensures PeriodicFlagged(Checked(s, cfg).0, cfg)
    decreases DueCount(s.order, s.due, s.now)
  {
    if s.order != [] && At(s.due, s.order[0]) <= s.now {
      FireKeeps(s, cfg);
      FireFlagged(s, cfg);
      CheckFlagged(Fire(s, cfg), cfg);
    }
  }

  /** The flag is set exactly on the listed timers. */
  ghost predicate FlagsExact(s: State) {
    forall t {:trigger t in s.flags} {:trigger t in s.order} :: t in s.flags <==> t in s.order
  }

  /** Exact everywhere but at t, where a listed timer is flagged. */
  ghost predicate FlagsBut(s: State, t: int) {
    && (forall u {:trigger u in s.flags} {:trigger u in s.order} :: u != t ==> (u in s.flags <==> u in s.order))
    && (t in s.order ==> t in s.flags)
  }

  /** While t's callback runs, t is listed if the last call that names it is a start, and flagged unless it is a
      stop. */
  lemma {:induction false} CallbackFlags(s: State, cfg: Config, cs: seq<Call>, t: int)
    requires Good(s) && CallsFine(cfg, cs) && DelaysPositive(cfg) && FlagsBut(s, t) && t !in s.order && t in s.flags
    ensures var s' := CalledAll(s, cfg, cs);
            && FlagsBut(s', t) && (t in s'.order <==> EndsStarted(cs, t)) && (t in s'.flags <==> !EndsStopped(cs, t))
  {
    hide Good, DelaysPositive, Startable, FlagsBut, Called, At;
    if cs != [] {
      var cs1, c := cs[..|cs| - 1], cs[|cs| - 1];
      CallsKeep(s, cfg, cs1);
      CallbackFlags(s, cfg, cs1, t);
      CallFlags(CalledAll(s, cfg, cs1), cfg, c, t);
    }
  }

  lemma CallFlags(s: State, cfg: Config, c: Call, t: int)
    requires Good(s) && FlagsBut(s, t)
    ensures var s' := Called(s, cfg, c);
            && FlagsBut(s', t)
            && (t in s'.order <==> if c.timer == t then c.Start? else t in s.order)
            && (t in s'.flags <==> if c.timer == t then c.Start? else t in s.flags)
  {
    hide Good, InsertSorted, Minus, At;
    match c
    case Start(u) => StartKeeps(s, cfg, u);
    case Stop(u) => StopKeeps(s, u);
  }

  /** A round of the check loop leaves the flags exact if and only if the timer is periodic or its callback does not
      leave it started: the check clears the flag of a one-shot that its callback has put back on the list. */
  lemma FireFlags(s: State, cfg: Config)
    requires s.order != [] && Good(s) && DelaysPositive(cfg) && FlagsExact(s)
    ensures var t, s' := s.order[0], Fire(s, cfg);
            && (FlagsExact(s') <==> t in cfg.periodic || !EndsStarted(CallsOf(cfg, t), t))
            && (!FlagsExact(s') ==> t in s'.order && t !in s'.flags)
  {
    var t, s0 := s.order[0], s.(order := s.order[1..]);
    var s1 := CalledAll(s0, cfg, CallsOf(cfg, t));
    TailKeeps(s);
    assert FlagsBut(s0, t) && t in s0.flags;
    hide *;
    FireForm(s, cfg);
    CallsKeep(s0, cfg, CallsOf(cfg, t));
    CallbackFlags(s0, cfg, CallsOf(cfg, t), t);
    EndsOnce(CallsOf(cfg, t), t);
    if t in cfg.periodic && t in s1.flags {
      CallFlags(s1, cfg, Start(t), t);
      FlagsMeet(Called(s1, cfg, Start(t)), t);
    } else {
      FlagCleared(s1, t);
    }
  }

  lemma {:induction false} EndsOnce(cs: seq<Call>, t: int)
    ensures EndsStopped(cs, t) ==> !EndsStarted(cs, t)
  {
    if cs != [] {
      EndsOnce(cs[..|cs| - 1], t);
    }
  }

  lemma FlagsMeet(s: State, t: int)
    requires FlagsBut(s, t) && (t in s.flags <==> t in s.order)
    ensures FlagsExact(s)
  {
  }

  lemma FlagCleared(s: State, t: int)
    requires FlagsBut(s, t)
    ensures FlagsExact(s.(flags := s.flags - {t})) <==> t !in s.order
  {
    assert t !in s.flags - {t};
  }

  /** No one-shot's callback leaves it started. */
  ghost predicate NoSelfRestart(cfg: Config) {
    forall t {:trigger CallsOf(cfg, t)} :: t in cfg.periodic || !EndsStarted(CallsOf(cfg, t), t)
  }

  lemma {:induction false} CheckFlags(s: State, cfg: Config)
    requires Good(s) && DelaysPositive(cfg) && FlagsExact(s) && NoSelfRestart(cfg)
    ensures FlagsExact(Checked(s, cfg).0)
    decreases DueCount(s.order, s.due, s.now)
  {
    if s.order != [] && At(s.due, s.order[0]) <= s.now {
      FireKeeps(s, cfg);
      FireFlags(s, cfg);
      assert s.order[0] in cfg.periodic || !EndsStarted(CallsOf(cfg, s.order[0]), s.order[0]);
      CheckFlags(Fire(s, cfg), cfg);
    }
  }

  // Ties.

  /** Equal deadlines stand in the order in which they were started. */
  ghost predicate TicketsOk(s: State) {
    && (forall i, j :: 0 <= i < j < |s.order| && At(s.due, s.order[i]) == At(s.due, s.order[j]) ==>
          At(s.since, s.order[i]) < At(s.since, s.order[j]))
    && forall u {:trigger u in s.order} :: u in s.order ==> At(s.since, u) < s.ticket
  }

  lemma MinusTickets(s: State, t: int)
    requires Good(s) && TicketsOk(s)
    ensures TicketsOk(s.(order := Minus(s.order, t)))
  {
    MinusMembers(s.order, t);
    if t in s.order {
      var p :| 0 <= p < |s.order| && s.order[p] == t;
      MinusAt(s.order, p);
      hide Minus, Good;
      LessTickets(s, s.(order := Minus(s.order, t)), p);
    }
  }

  lemma LessTickets(s: State, s': State, p: nat)
    requires TicketsOk(s) && p < |s.order| && s' == s.(order := s.order[..p] + s.order[p + 1..])
    ensures TicketsOk(s')
  {
    hide At;
    var o := s'.order;
    assert forall i {:trigger o[i]} :: 0 <= i < |o| ==> o[i] == s.order[if i < p then i else i + 1];
    assert forall u {:trigger u in o} :: u in o ==> u in s.order;
  }

  /** A start goes behind all ties, and its ticket is the newest. */
  lemma StartTickets(s: State, cfg: Config, t: int)
    requires Good(s) && TicketsOk(s)
    ensures TicketsOk(Started(s, cfg, t))
  {
    var s1, s' := s.(order := Minus(s.order, t)), Started(s, cfg, t);
    MinusTickets(s, t);
    MinusMembers(s.order, t);
    MinusKeeps(s.order, s.due, t);
    StartKeeps(s, cfg, t);
    SortedSame(s1.order, s.due, s'.due);
    InsertSpot(s1.order, s'.due, t);
    BehindScan(s1.order, s'.due, At(s'.due, t));
    var p := Scan(s1.order, s'.due, At(s'.due, t));
    hide Started, Minus, NoRepeats, Sorted, Scan, Good, At, InsertSorted;
    PutTickets(s1, s', t, p);
  }

  lemma PutTickets(s: State, s': State, t: int, p: nat)
    requires TicketsOk(s) && p <= |s.order| && |s'.order| == |s.order| + 1 && s'.order[p] == t && t !in s.order
    requires forall i {:trigger s'.order[i]} :: 0 <= i < |s'.order| && i != p ==>
               s'.order[i] == s.order[if i < p then i else i - 1]
    requires forall j {:trigger s.order[j]} :: p <= j < |s.order| ==> At(s'.due, s.order[j]) > At(s'.due, t)
    requires forall u {:trigger At(s'.due, u)} :: u != t ==> At(s'.due, u) == At(s.due, u)
    requires forall u {:trigger At(s'.since, u)} :: u != t ==> At(s'.since, u) == At(s.since, u)
    requires At(s'.since, t) == s.ticket && s'.ticket == s.ticket + 1
    ensures TicketsOk(s')
  {
    hide At;
    assert forall j :: 0 <= j < |s.order| ==> s.order[j] in s.order;
    forall i, j | 0 <= i < j < |s'.order| && At(s'.due, s'.order[i]) == At(s'.due, s'.order[j])
      ensures At(s'.since, s'.order[i]) < At(s'.since, s'.order[j])
    {
      assert i != p;
      assert s'.order[i] == s.order[if i < p then i else i - 1];
    }
  }

  lemma CallTickets(s: State, cfg: Config, c: Call)
    requires Good(s) && TicketsOk(s)
    ensures TicketsOk(Called(s, cfg, c))
  {
    match c
    case Start(t) => StartTickets(s, cfg, t);
    case Stop(t) =>
      MinusTickets(s, t);
      GoodAnyway(s.(order := Minus(s.order, t)), s.now, s.flags - {t});
  }

  lemma {:induction false} CallsTickets(s: State, cfg: Config, cs: seq<Call>)
    requires Good(s) && TicketsOk(s) && CallsFine(cfg, cs) && DelaysPositive(cfg)
    ensures TicketsOk(CalledAll(s, cfg, cs))
  {
    hide Good, TicketsOk, Called, Startable;
    if cs != [] {
      var cs1 := cs[..|cs| - 1];
      CallsKeep(s, cfg, cs1);
      CallsTickets(s, cfg, cs1);
      CallTickets(CalledAll(s, cfg, cs1), cfg, cs[|cs| - 1]);
    }
  }

  lemma FireTickets(s: State, cfg: Config)
    requires s.order != [] && At(s.due, s.order[0]) <= s.now && Good(s) && DelaysPositive(cfg) && TicketsOk(s)
    ensures TicketsOk(Fire(s, cfg))
  {
    var t, s0 := s.order[0], s.(order := s.order[1..]);
    TailKeeps(s);
    assert TicketsOk(s0);
    var s1 := CalledAll(s0, cfg, CallsOf(cfg, t));
    GoodAnyway(s1, s1.now, s1.flags - {t});
    hide Good, TicketsOk, Started, Startable, CalledAll;
    CallsOfFine(cfg, t);
    CallsKeep(s0, cfg, CallsOf(cfg, t));
    CallsTickets(s0, cfg, CallsOf(cfg, t));
    StartTickets(s1, cfg, t);
  }

  /** a comes before b: at an earlier time, or with an earlier deadline, or started earlier. */
  predicate Earlier(a: Firing, b: Firing) {
    || a.time < b.time
    || (a.time == b.time && (a.due < b.due || (a.due == b.due && a.since < b.since)))
  }

  ghost predicate InOrder(log: seq<Firing>) {
    forall i, j :: 0 <= i < j < |log| ==> Earlier(log[i], log[j])
  }

  /** Each entry of a check is a timer that was listed and due, with its deadline and ticket from before the check. */
  lemma {:induction false} CheckEntries(s: State, cfg: Config, k: nat)
    requires Good(s) && DelaysPositive(cfg) && k < |Checked(s, cfg).1|
    ensures var e := Checked(s, cfg).1[k];
            && e.timer in s.order && e.time == s.now && e.due == At(s.due, e.timer) <= s.now
            && e.since == At(s.since, e.timer)
    decreases DueCount(s.order, s.due, s.now)
  {
    FireKeeps(s, cfg);
    if k > 0 {
      CheckEntries(Fire(s, cfg), cfg, k - 1);
      TailKeeps(s);
    }
  }

  /** The check fires by deadline, ties in start order, and keeps the tickets in order. */
  lemma {:induction false} CheckOrdered(s: State, cfg: Config)
    requires Good(s) && DelaysPositive(cfg) && TicketsOk(s)
    ensures InOrder(Checked(s, cfg).1) && TicketsOk(Checked(s, cfg).0)
    decreases DueCount(s.order, s.due, s.now)
  {
    CheckedForm(s, cfg);
    if s.order != [] && At(s.due, s.order[0]) <= s.now {
      FireTickets(s, cfg);
      hide Checked, Fire, Good, TicketsOk, DelaysPositive, DueCount, InOrder, Earlier;
      CheckOrdered(Fire(s, cfg), cfg);
      var e := Firing(s.order[0], s.now, At(s.due, s.order[0]), At(s.since, s.order[0]));
      var log := Checked(Fire(s, cfg), cfg).1;
      forall k {:trigger log[k]} | 0 <= k < |log| ensures Earlier(e, log[k]) {
        LaterEntry(s, cfg, k);
      }
      InOrderCons(e, log);
    }
  }

  lemma InOrderCons(e: Firing, log: seq<Firing>)
    requires InOrder(log) && forall k {:trigger log[k]} :: 0 <= k < |log| ==> Earlier(e, log[k])
    ensures InOrder([e] + log)
  {
  }

  /** Whoever fires later in this check stood behind the head. */
  lemma LaterEntry(s: State, cfg: Config, k: nat)
    requires Good(s) && DelaysPositive(cfg) && TicketsOk(s) && s.order != [] && At(s.due, s.order[0]) <= s.now
    requires Good(Fire(s, cfg)) && k < |Checked(Fire(s, cfg), cfg).1|
    ensures Earlier(Firing(s.order[0], s.now, At(s.due, s.order[0]), At(s.since, s.order[0])),
                    Checked(Fire(s, cfg), cfg).1[k])
  {
    var s' := Fire(s, cfg);
    FireKeeps(s, cfg);
    hide Checked, Fire, Good, TicketsOk, DelaysPositive, DueCount;
    CheckEntries(s', cfg, k);
    HeadEarlier(s, Checked(s', cfg).1[k].timer);
  }

  lemma HeadEarlier(s: State, u: int)
    requires Good(s) && TicketsOk(s) && s.order != [] && u in s.order[1..]
    ensures At(s.due, s.order[0]) < At(s.due, u)
         || (At(s.due, s.order[0]) == At(s.due, u) && At(s.since, s.order[0]) < At(s.since, u))
  {
    var k :| 0 <= k < |s.order[1..]| && s.order[1..][k] == u;
    assert s.order[k + 1] == u;
  }

  // Whole runs: clock ticks interleaved with starts and stops.

  datatype Op = Tick | Do(call: Call)

  /** Deadlines are ahead, except that a zero delay may be due already. */
  ghost predicate RunInv(s: State, cfg: Config) {
    && Good(s) && DelaysPositive(cfg) && PeriodicFlagged(s, cfg)
    && (forall t {:trigger At(cfg.init, t)} :: At(cfg.init, t) >= 0)
    && forall t {:trigger t in s.order} :: t in s.order ==>
         s.now <= At(s.due, t) && (t in cfg.periodic ==> s.now < At(s.due, t))
  }

  function Step(s: State, cfg: Config, op: Op): (State, seq<Firing>)
    requires RunInv(s, cfg)
  {
    match op
    case Tick => Checked(s.(now := s.now + 1), cfg)
    case Do(c) => (Called(s, cfg, c), [])
  }

  /** Every step keeps the run invariant. */
  lemma StepKeeps(s: State, cfg: Config, op: Op)
    requires RunInv(s, cfg)
    ensures RunInv(Step(s, cfg, op).0, cfg)
    ensures Step(s, cfg, op).0.now == if op.Tick? then s.now + 1 else s.now
  {
    hide Good, Checked, Started, Minus, TicketsOk;
    match op
    case Tick =>
      GoodAnyway(s, s.now + 1, s.flags);
      CheckDone(s.(now := s.now + 1), cfg);
      CheckFlagged(s.(now := s.now + 1), cfg);
    case Do(Start(t)) =>
      StartKeeps(s, cfg, t);
      CallFlagged(s, cfg, Start(t));
      assert t in cfg.periodic ==> Startable(cfg, t);
    case Do(Stop(t)) =>
      StopKeeps(s, t);
      CallFlagged(s, cfg, Stop(t));
  }

  function Run(s: State, cfg: Config, ops: seq<Op>): (State, seq<Firing>)
    requires RunInv(s, cfg)
    decreases |ops|
  {
    if ops == [] then (s, [])
    else
      StepKeeps(s, cfg, ops[0]);
      var r := Step(s, cfg, ops[0]);
      var r' := Run(r.0, cfg, ops[1..]);
      (r'.0, r.1 + r'.1)
  }

  lemma RunForm(s: State, cfg: Config, ops: seq<Op>)
    requires RunInv(s, cfg) && ops != []
    ensures RunInv(Step(s, cfg, ops[0]).0, cfg)
    ensures Run(s, cfg, ops).0 == Run(Step(s, cfg, ops[0]).0, cfg, ops[1..]).0
    ensures Run(s, cfg, ops).1 == Step(s, cfg, ops[0]).1 + Run(Step(s, cfg, ops[0]).0, cfg, ops[1..]).1
  {
    StepKeeps(s, cfg, ops[0]);
  }

  /** When t fired, in log order. */
  function TimesOf(log: seq<Firing>, t: int): seq<int> {
    if log == [] then []
    else (if log[0].timer == t then [log[0].time] else []) + TimesOf(log[1..], t)
  }

  lemma TimesOfCons(e: Firing, log: seq<Firing>, t: int)
    ensures TimesOf([e] + log, t) == (if e.timer == t then [e.time] else []) + TimesOf(log, t)
  {
    assert ([e] + log)[1..] == log;
  }

  lemma {:induction false} TimesOfConcat(a: seq<Firing>, b: seq<Firing>, t: int)
    ensures TimesOf(a + b, t) == TimesOf(a, t) + TimesOf(b, t)
  {
    if a == [] {
      assert a + b == b;
    } else {
      hide TimesOf;
      assert a == [a[0]] + a[1..] && a + b == [a[0]] + (a[1..] + b);
      TimesOfConcat(a[1..], b, t);
      TimesOfCons(a[0], a[1..], t);
      TimesOfCons(a[0], a[1..] + b, t);
    }
  }

  /** first, first + d, first + 2 d, ... up to end; just first for a one-shot. */
  function Expected(first: int, d: int, periodic: bool, end: int): seq<int>
    requires periodic ==> d >= 1
    decreases end - first
  {
    if first > end then [] else [first] + if periodic then Expected(first + d, d, periodic, end) else []
  }

  /** The first instant at which a listed timer can fire. */
  function FirstFiring(s: State, t: int): int {
    if At(s.due, t) <= s.now then s.now + 1 else At(s.due, t)
  }

  predicate NamedBy(op: Op, t: int) {
    op.Do? && op.call.timer == t
  }

  lemma CallOther(s: State, cfg: Config, c: Call, t: int)
    requires Good(s) && c.timer != t
    ensures var s' := Called(s, cfg, c);
            s'.now == s.now && (t in s'.order <==> t in s.order) && At(s'.due, t) == At(s.due, t)
  {
    hide Good, Minus, At, Started;
    match c
    case Start(u) => StartKeeps(s, cfg, u);
    case Stop(u) => StopKeeps(s, u);
  }

  lemma TickFires(s: State, cfg: Config, t: int)
    requires RunInv(s, cfg) && Untouched(cfg, t)
    ensures var s1 := s.(now := s.now + 1);
            var (s', log) := Step(s, cfg, Tick);
            var hit := t in s.order && At(s.due, t) <= s1.now;
            && TimesOf(log, t) == (if hit then [s1.now] else [])
            && (t in s'.order <==> t in s.order && (!hit || t in cfg.periodic))
            && (t in s'.order ==> At(s'.due, t) == if hit then s1.now + At(cfg.init, t) else At(s.due, t))
  {
    hide Good, Checked, TicketsOk, TimesOf;
    GoodAnyway(s, s.now + 1, s.flags);
    CheckResult(s.(now := s.now + 1), cfg, t);
  }

  /** What a step does to a timer that neither it nor any callback names. */
  lemma StepOther(s: State, cfg: Config, op: Op, t: int)
    requires RunInv(s, cfg) && Untouched(cfg, t) && !NamedBy(op, t)
    ensures var s' := Step(s, cfg, op).0;
            var hit := op.Tick? && t in s.order && At(s.due, t) <= s.now + 1;
            && s'.now == (if op.Tick? then s.now + 1 else s.now)
            && TimesOf(Step(s, cfg, op).1, t) == (if hit then [s.now + 1] else [])
            && (t in s'.order <==> t in s.order && (!hit || t in cfg.periodic))
            && (t in s'.order ==> At(s'.due, t) == if hit then s.now + 1 + At(cfg.init, t) else At(s.due, t))
  {
    StepKeeps(s, cfg, op);
    match op
    case Tick =>
      TickFires(s, cfg, t);
    case Do(c) =>
      CallOther(s, cfg, c, t);
      hide Called;
  }

  lemma PeriodAhead(s: State, cfg: Config, t: int)
    requires RunInv(s, cfg)
    ensures t in cfg.periodic ==> At(cfg.init, t) >= 1
    ensures t in s.order && t in cfg.periodic ==> FirstFiring(s, t) == At(s.due, t)
    ensures t in s.order ==> At(s.due, t) >= s.now
  {
    assert t in cfg.periodic ==> Startable(cfg, t);
  }

  /** The instants up to `end` at which t is to fire. */
  function Due(s: State, cfg: Config, t: int, end: int): seq<int>
    requires t in cfg.periodic ==> At(cfg.init, t) >= 1
  {
    if t in s.order then Expected(FirstFiring(s, t), At(cfg.init, t), t in cfg.periodic, end) else []
  }

  /** t fires at its first instant, then, if periodic, every init_tick ticks up to the end of the run; never if
      unlisted. */
  ghost predicate OnTime(s: State, cfg: Config, ops: seq<Op>, t: int)
    requires RunInv(s, cfg) && (t in cfg.periodic ==> At(cfg.init, t) >= 1)
  {
    var r := Run(s, cfg, ops);
    && r.0.now >= s.now
    && TimesOf(r.1, t) == Due(s, cfg, t, r.0.now)
  }

  lemma OnTimeNext(s: State, cfg: Config, ops: seq<Op>, t: int)
    requires RunInv(s, cfg) && ops != [] && Untouched(cfg, t) && !NamedBy(ops[0], t)
    requires t in cfg.periodic ==> At(cfg.init, t) >= 1
    requires RunInv(Step(s, cfg, ops[0]).0, cfg) && OnTime(Step(s, cfg, ops[0]).0, cfg, ops[1..], t)
    ensures OnTime(s, cfg, ops, t)
  {
    hide RunInv, Step, TimesOf, Run, At, Expected, FirstFiring, Untouched;
    var op, s' := ops[0], Step(s, cfg, ops[0]).0;
    RunForm(s, cfg, ops);
    TimesOfConcat(Step(s, cfg, op).1, Run(s', cfg, ops[1..]).1, t);
    StepExpected(s, cfg, op, Run(s', cfg, ops[1..]).0.now, t);
    StepOther(s, cfg, op, t);
  }

  /** What t still has to do before a step is what it does in the step and what it has to do after it. */
  lemma StepExpected(s: State, cfg: Config, op: Op, end: int, t: int)
    requires RunInv(s, cfg) && Untouched(cfg, t) && !NamedBy(op, t) && RunInv(Step(s, cfg, op).0, cfg)
    requires end >= Step(s, cfg, op).0.now
    ensures t in cfg.periodic ==> At(cfg.init, t) >= 1
    ensures Due(s, cfg, t, end) == TimesOf(Step(s, cfg, op).1, t) + Due(Step(s, cfg, op).0, cfg, t, end)
  {
    hide *;
    PeriodAhead(s, cfg, t);
    PeriodAhead(Step(s, cfg, op).0, cfg, t);
    StepOther(s, cfg, op, t);
    DueStep(s, Step(s, cfg, op).0, cfg, t, end, op.Tick? && t in s.order && At(s.due, t) <= s.now + 1);
  }

  lemma DueStep(s: State, s': State, cfg: Config, t: int, end: int, hit: bool)
    requires (t in cfg.periodic ==> At(cfg.init, t) >= 1) && s'.now <= end
    requires t in s.order ==> At(s.due, t) >= s.now && (t in cfg.periodic ==> FirstFiring(s, t) == At(s.due, t))
    requires t in s'.order ==> At(s'.due, t) >= s'.now && (t in cfg.periodic ==> FirstFiring(s', t) == At(s'.due, t))
    requires hit ==> t in s.order && At(s.due, t) <= s.now + 1 == s'.now
    requires !hit ==> s'.now == s.now || (s'.now == s.now + 1 && (t in s.order ==> At(s.due, t) > s'.now))
    requires t in s'.order <==> t in s.order && (!hit || t in cfg.periodic)
    requires t in s'.order ==> At(s'.due, t) == if hit then s'.now + At(cfg.init, t) else At(s.due, t)
    ensures Due(s, cfg, t, end) == (if hit then [s'.now] else []) + Due(s', cfg, t, end)
  {
    hide At, Expected;
    if hit {
      ExpectedNext(s'.now, At(cfg.init, t), t in cfg.periodic, end);
    }
  }

  lemma ExpectedNext(first: int, d: int, periodic: bool, end: int)
    requires (periodic ==> d >= 1) && first <= end
    ensures Expected(first, d, periodic, end) == [first] + if periodic then Expected(first + d, d, periodic, end)
            else []
  {
  }

  /** Over any run in which nobody starts or stops t: an unlisted timer never fires; a listed one-shot fires once,
      at its deadline; a periodic one fires at its deadline and then every init_tick ticks, without drift. */
  lemma {:induction false} FiresOnTime(s: State, cfg: Config, ops: seq<Op>, t: int)
    requires RunInv(s, cfg) && Untouched(cfg, t)
    requires forall k :: 0 <= k < |ops| ==> !NamedBy(ops[k], t)
    ensures t in cfg.periodic ==> At(cfg.init, t) >= 1
    ensures OnTime(s, cfg, ops, t)
    decreases |ops|
  {
    PeriodAhead(s, cfg, t);
    if ops != [] {
      hide RunInv, Step, OnTime, Untouched;
      StepKeeps(s, cfg, ops[0]);
      FiresOnTime(Step(s, cfg, ops[0]).0, cfg, ops[1..], t);
      OnTimeNext(s, cfg, ops, t);
    }
  }

  // The order of firings in the log of a run.

  lemma StepOrdered(s: State, cfg: Config, op: Op)
    requires RunInv(s, cfg) && TicketsOk(s)
    ensures var r := Step(s, cfg, op);
            InOrder(r.1) && TicketsOk(r.0) && forall e :: e in r.1 ==> op.Tick? && e.time == s.now + 1
  {
    hide Good, Checked, Called, TicketsOk, DelaysPositive;
    match op
    case Tick =>
      var s1 := s.(now := s.now + 1);
      GoodAnyway(s, s1.now, s.flags);
      CheckOrdered(s1, cfg);
      forall e | e in Checked(s1, cfg).1 ensures e.time == s1.now {
        var k :| 0 <= k < |Checked(s1, cfg).1| && Checked(s1, cfg).1[k] == e;
        CheckEntries(s1, cfg, k);
      }
    case Do(c) => CallTickets(s, cfg, c);
  }

  lemma InOrderConcat(a: seq<Firing>, b: seq<Firing>, now: int)
    requires InOrder(a) && InOrder(b)
    requires (forall e :: e in a ==> e.time <= now) && (forall e :: e in b ==> e.time > now)
    ensures InOrder(a + b)
  {
    forall i, j | 0 <= i < j < |a + b| ensures Earlier((a + b)[i], (a + b)[j]) {
      if i < |a| <= j {
        assert a[i] in a && b[j - |a|] in b;
      }
    }
  }

  lemma CallSilent(s: State, cfg: Config, c: Call)
    requires RunInv(s, cfg)
    ensures Step(s, cfg, Do(c)) == (Called(s, cfg, c), [])
  {
  }

  /** Over any run, with any callbacks: the log is ordered by time, then deadline, then start, and the list keeps
      equal deadlines in start order. */
  lemma {:induction false} LogInOrder(s: State, cfg: Config, ops: seq<Op>)
    requires RunInv(s, cfg) && TicketsOk(s)
    ensures var (s', log) := Run(s, cfg, ops);
            TicketsOk(s') && InOrder(log) && forall e :: e in log ==> e.time > s.now
    decreases |ops|
  {
    if ops != [] {
      hide RunInv, Step, TicketsOk, InOrder, Earlier;
      StepKeeps(s, cfg, ops[0]);
      StepOrdered(s, cfg, ops[0]);
      var r := Step(s, cfg, ops[0]);
      LogInOrder(r.0, cfg, ops[1..]);
      var log := Run(r.0, cfg, ops[1..]).1;
      if ops[0].Tick? {
        InOrderConcat(r.1, log, s.now + 1);
      } else {
        CallSilent(s, cfg, ops[0].call);
        assert r.1 + log == log;
      }
    }
  }

  /** Over any run the flags stay exact if no one-shot's callback leaves it started. */
  lemma {:induction false} RunFlags(s: State, cfg: Config, ops: seq<Op>)
    requires RunInv(s, cfg) && FlagsExact(s) && NoSelfRestart(cfg)
    ensures FlagsExact(Run(s, cfg, ops).0)
    decreases |ops|
  {
    if ops != [] {
      hide RunInv, FlagsExact, NoSelfRestart, Step;
      StepKeeps(s, cfg, ops[0]);
      StepFlags(s, cfg, ops[0]);
      RunFlags(Step(s, cfg, ops[0]).0, cfg, ops[1..]);
    }
  }

  lemma StepFlags(s: State, cfg: Config, op: Op)
    requires RunInv(s, cfg) && FlagsExact(s) && NoSelfRestart(cfg)
    ensures FlagsExact(Step(s, cfg, op).0)
  {
    hide Good, Checked, Called, DelaysPositive, NoSelfRestart, TicketsOk, At;
    match op
    case Tick =>
      GoodAnyway(s, s.now + 1, s.flags);
      CheckFlags(s.(now := s.now + 1), cfg);
    case Do(c) => CallExact(s, cfg, c);
  }

  /** Starts and stops keep the flags exact. */
  lemma CallExact(s: State, cfg: Config, c: Call)
    requires Good(s) && FlagsExact(s)
    ensures FlagsExact(Called(s, cfg, c))
  {
    CallFlags(s, cfg, c, c.timer);
    hide Called, Good;
  }

  // Punctuality, and the order of firings at one instant.

  /** Whoever is listed in s' was so in s with the same deadline, or may be started during a check. */
  ghost predicate Kept(s: State, s': State, cfg: Config) {
    forall u {:trigger u in s'.order} :: u in s'.order ==>
      Startable(cfg, u) || (u in s.order && At(s'.due, u) == At(s.due, u))
  }

  lemma KeptOn(s: State, s1: State, s2: State, cfg: Config)
    requires Kept(s, s1, cfg) && Kept(s1, s2, cfg)
    ensures Kept(s, s2, cfg)
  {
    hide Startable, At;
  }

  lemma CallKept(s: State, cfg: Config, c: Call)
    requires Good(s) && (c.Start? ==> Startable(cfg, c.timer))
    ensures Kept(s, Called(s, cfg, c), cfg)
  {
    hide Good, Started, Minus, At, Startable;
    match c
    case Start(t) => StartKeeps(s, cfg, t);
    case Stop(t) => StopKeeps(s, t);
  }

  lemma {:induction false} CallsKept(s: State, cfg: Config, cs: seq<Call>)
    requires Good(s) && CallsFine(cfg, cs) && DelaysPositive(cfg)
    ensures Kept(s, CalledAll(s, cfg, cs), cfg)
  {
    if cs != [] {
      var cs1, c := cs[..|cs| - 1], cs[|cs| - 1];
      var s1 := CalledAll(s, cfg, cs1);
      hide Good, Kept, Called, Startable, DelaysPositive;
      CallsKeep(s, cfg, cs1);
      CallsKept(s, cfg, cs1);
      CallKept(s1, cfg, c);
      KeptOn(s, s1, Called(s1, cfg, c), cfg);
    }
  }

  lemma FireKept(s: State, cfg: Config)
    requires s.order != [] && Good(s) && DelaysPositive(cfg)
    ensures Kept(s, Fire(s, cfg), cfg)
  {
    var t, s0 := s.order[0], s.(order := s.order[1..]);
    var s1 := CalledAll(s0, cfg, CallsOf(cfg, t));
    TailKeeps(s);
    assert Kept(s, s0, cfg) && Kept(s1, s1.(flags := s1.flags - {t}), cfg);
    hide *;
    FireForm(s, cfg);
    CallsKeep(s0, cfg, CallsOf(cfg, t));
    CallsKept(s0, cfg, CallsOf(cfg, t));
    KeptOn(s, s0, s1, cfg);
    if t in cfg.periodic && t in s1.flags {
      CallKept(s1, cfg, Start(t));
    }
    KeptOn(s, s1, Fire(s, cfg), cfg);
  }

  lemma {:induction false} CheckKept(s: State, cfg: Config)
    requires Good(s) && DelaysPositive(cfg)
    ensures Kept(s, Checked(s, cfg).0, cfg)
    decreases DueCount(s.order, s.due, s.now)
  {
    CheckedForm(s, cfg);
    if s.order != [] && At(s.due, s.order[0]) <= s.now {
      hide Good, Kept, Fire, Checked, DueCount, DelaysPositive;
      FireKept(s, cfg);
      CheckKept(Fire(s, cfg), cfg);
      KeptOn(s, Fire(s, cfg), Checked(s, cfg).0, cfg);
    }
  }

  /** Listed timers are ahead of their deadlines, except those with no delay, which are due at once. */
  ghost predicate Punctual(s: State, cfg: Config) {
    forall t {:trigger t in s.order} :: t in s.order ==> (s.now < At(s.due, t) <==> At(cfg.init, t) >= 1)
  }

  /** A timer with a delay fires at its deadline, one without fires in the tick after it. */
  ghost predicate FiresPunctually(log: seq<Firing>, cfg: Config) {
    forall k {:trigger log[k]} :: 0 <= k < |log| ==>
      log[k].due == if At(cfg.init, log[k].timer) >= 1 then log[k].time else log[k].time - 1
  }

  lemma TickPunctual(s: State, cfg: Config)
    requires RunInv(s, cfg) && Punctual(s, cfg)
    ensures var r := Step(s, cfg, Tick); Punctual(r.0, cfg) && FiresPunctually(r.1, cfg)
  {
    var s1 := s.(now := s.now + 1);
    hide Good, Checked, Startable;
    GoodAnyway(s, s1.now, s.flags);
    CheckDone(s1, cfg);
    CheckKept(s1, cfg);
    var log := Checked(s1, cfg).1;
    forall k {:trigger log[k]} | 0 <= k < |log|
      ensures log[k].due == if At(cfg.init, log[k].timer) >= 1 then log[k].time else log[k].time - 1
    {
      CheckEntries(s1, cfg, k);
    }
  }

  lemma CallPunctual(s: State, cfg: Config, c: Call)
    requires RunInv(s, cfg) && Punctual(s, cfg)
    ensures Punctual(Called(s, cfg, c), cfg)
  {
    hide Good, Started, Minus, DelaysPositive;
    match c
    case Start(t) => StartKeeps(s, cfg, t);
    case Stop(t) => StopKeeps(s, t);
  }

  /** Over any run, with any callbacks, a firing is after its deadline if and only if the timer has no delay, and then
      it is one tick late. */
  lemma {:induction false} RunPunctual(s: State, cfg: Config, ops: seq<Op>)
    requires RunInv(s, cfg) && Punctual(s, cfg)
    ensures Punctual(Run(s, cfg, ops).0, cfg) && FiresPunctually(Run(s, cfg, ops).1, cfg)
    decreases |ops|
  {
    if ops != [] {
      hide RunInv, Step, Punctual, At;
      StepKeeps(s, cfg, ops[0]);
      if ops[0].Tick? {
        TickPunctual(s, cfg);
      } else {
        CallSilent(s, cfg, ops[0].call);
        CallPunctual(s, cfg, ops[0].call);
      }
      RunPunctual(Step(s, cfg, ops[0]).0, cfg, ops[1..]);
    }
  }

  /** Two firings at one instant come in start order, except that a timer without delay comes before one with a delay
      whenever that was started. */
  lemma SameInstant(s: State, cfg: Config, ops: seq<Op>, i: nat, j: nat)
    requires RunInv(s, cfg) && TicketsOk(s) && Punctual(s, cfg) && i < j < |Run(s, cfg, ops).1|
    ensures var log := Run(s, cfg, ops).1;
            log[i].time == log[j].time ==>
              || log[i].since < log[j].since
              || (At(cfg.init, log[i].timer) == 0 && At(cfg.init, log[j].timer) >= 1)
  {
    assert forall t :: At(cfg.init, t) >= 0;
    hide RunInv, TicketsOk, Punctual, Run, At;
    LogInOrder(s, cfg, ops);
    RunPunctual(s, cfg, ops);
    var log := Run(s, cfg, ops).1;
    assert Earlier(log[i], log[j]);
  }

  /** The start of a system: nothing listed. */
  function Fresh(now: int): State { State([], map[], map[], 0, {}, now) }

  /** It meets all that is asked of a first state. */
  lemma FreshFine(cfg: Config, now: int)
    requires DelaysPositive(cfg) && forall t {:trigger At(cfg.init, t)} :: At(cfg.init, t) >= 0
    ensures RunInv(Fresh(now), cfg) && TicketsOk(Fresh(now)) && FlagsExact(Fresh(now)) && Punctual(Fresh(now), cfg)
  {
    hide DelaysPositive;
  }

  /** Firings at one instant are in the order in which the timers were started. */
  ghost predicate StartOrdered(log: seq<Firing>) {
    forall i, j :: 0 <= i < j < |log| && log[i].time == log[j].time ==> log[i].since < log[j].since
  }

  /** The run starts and stops initialised timers only. */
  ghost predicate OpsKnown(cfg: Config, ops: seq<Op>) {
    forall k {:trigger ops[k]} :: 0 <= k < |ops| && ops[k].Do? ==> ops[k].call.timer in cfg.init
  }

  ghost predicate ListKnown(s: State, cfg: Config) {
    forall t {:trigger t in s.order} :: t in s.order ==> t in cfg.init
  }

  /** Some initialised timer has no delay, and some other one has. */
  ghost predicate DelaysMixed(cfg: Config) {
    exists a, b {:trigger cfg.init[a], cfg.init[b]} ::
      a in cfg.init && b in cfg.init && cfg.init[a] == 0 && cfg.init[b] >= 1
  }

  lemma StepKnown(s: State, cfg: Config, op: Op)
    requires RunInv(s, cfg) && ListKnown(s, cfg) && (op.Do? ==> op.call.timer in cfg.init)
    ensures var r := Step(s, cfg, op); ListKnown(r.0, cfg) && forall e :: e in r.1 ==> e.timer in cfg.init
  {
    hide Good, Checked, Started, Minus, Startable;
    match op
    case Tick =>
      var s1 := s.(now := s.now + 1);
      GoodAnyway(s, s1.now, s.flags);
      CheckKept(s1, cfg);
      forall e | e in Checked(s1, cfg).1 ensures e.timer in cfg.init {
        var k :| 0 <= k < |Checked(s1, cfg).1| && Checked(s1, cfg).1[k] == e;
        CheckEntries(s1, cfg, k);
      }
    case Do(Start(t)) => StartKeeps(s, cfg, t);
    case Do(Stop(t)) => StopKeeps(s, t);
  }

  lemma {:induction false} RunKnown(s: State, cfg: Config, ops: seq<Op>)
    requires RunInv(s, cfg) && ListKnown(s, cfg) && OpsKnown(cfg, ops)
    ensures forall e :: e in Run(s, cfg, ops).1 ==> e.timer in cfg.init
    decreases |ops|
  {
    if ops != [] {
      assert OpsKnown(cfg, ops[1..]) by {
        assert forall k :: 0 <= k < |ops| - 1 ==> ops[1..][k] == ops[k + 1];
      }
      assert ops[0].Do? ==> ops[0].call.timer in cfg.init;
      hide RunInv, Step, ListKnown, OpsKnown;
      StepKeeps(s, cfg, ops[0]);
      StepKnown(s, cfg, ops[0]);
      RunKnown(Step(s, cfg, ops[0]).0, cfg, ops[1..]);
    }
  }

  /** Unless some initialised timers have a delay and others none, firings at one instant come in start order, over any
      run and with any callbacks. */
  lemma StartOrder(s: State, cfg: Config, ops: seq<Op>)
    requires RunInv(s, cfg) && TicketsOk(s) && Punctual(s, cfg) && ListKnown(s, cfg) && OpsKnown(cfg, ops)
    requires !DelaysMixed(cfg)
    ensures StartOrdered(Run(s, cfg, ops).1)
  {
    var log := Run(s, cfg, ops).1;
    hide RunInv, TicketsOk, Punctual, ListKnown, OpsKnown, Run;
    RunKnown(s, cfg, ops);
    forall i, j | 0 <= i < j < |log| && log[i].time == log[j].time ensures log[i].since < log[j].since {
      SameInstant(s, cfg, ops, i, j);
      assert log[i] in log && log[j] in log;
    }
  }

  // With such timers they do not: a timer started with no delay overtakes one that was started earlier and is due at
  // the
  // next tick.

  function Ticking(n: nat): (ops: seq<Op>)
    ensures |ops| == n && forall k :: 0 <= k < n ==> ops[k] == Tick
  {
    seq(n, _ => Tick)
  }

  lemma {:induction false} RunConcat(s: State, cfg: Config, a: seq<Op>, b: seq<Op>)
    requires RunInv(s, cfg)
    ensures RunInv(Run(s, cfg, a).0, cfg)
    ensures Run(s, cfg, a + b).0 == Run(Run(s, cfg, a).0, cfg, b).0
    ensures Run(s, cfg, a + b).1 == Run(s, cfg, a).1 + Run(Run(s, cfg, a).0, cfg, b).1
    decreases |a|
  {
    if a == [] {
      assert a + b == b;
    } else {
      assert (a + b)[1..] == a[1..] + b;
      hide RunInv, Step;
      RunForm(s, cfg, a);
      RunForm(s, cfg, a + b);
      RunConcat(Step(s, cfg, a[0]).0, cfg, a[1..], b);
    }
  }

  /** Ticks before the first deadline change nothing but the clock. */
  lemma {:induction false} QuietTicks(s: State, cfg: Config, n: nat)
    requires RunInv(s, cfg) && s.order != [] && (n > 0 ==> At(s.due, s.order[0]) > s.now + n)
    ensures Run(s, cfg, Ticking(n)) == (s.(now := s.now + n), [])
    decreases n
  {
    if n > 0 {
      var s1 := s.(now := s.now + 1);
      QuietTick(s, cfg);
      assert Ticking(n) == [Tick] + Ticking(n - 1);
      hide RunInv, Step, At;
      RunFirst(s, cfg, Tick, s1, Ticking(n - 1));
      QuietTicks(s1, cfg, n - 1);
    }
  }

  lemma QuietTick(s: State, cfg: Config)
    requires RunInv(s, cfg) && s.order != [] && At(s.due, s.order[0]) > s.now + 1
    ensures Step(s, cfg, Tick) == (s.(now := s.now + 1), [])
  {
    hide Good, DelaysPositive, Startable;
    GoodAnyway(s, s.now + 1, s.flags);
    CheckedForm(s.(now := s.now + 1), cfg);
  }

  /** Start b, let all but one tick of its delay pass, start a, tick. */
  function Overtaking(a: int, b: int, delay: int): seq<Op>
    requires delay >= 1
  {
    [Do(Start(b))] + Ticking(delay - 1) + [Do(Start(a)), Tick]
  }

  lemma ZeroDelayOvertakes(cfg: Config, a: int, b: int)
    requires DelaysPositive(cfg) && forall t {:trigger At(cfg.init, t)} :: At(cfg.init, t) >= 0
    requires At(cfg.init, a) == 0 && At(cfg.init, b) >= 1 && CallsOf(cfg, a) == []
    ensures RunInv(Fresh(0), cfg)
    ensures var d := At(cfg.init, b);
            var log := Run(Fresh(0), cfg, Overtaking(a, b, d)).1;
            |log| >= 2 && log[0] == Firing(a, d, d - 1, 1) && log[1] == Firing(b, d, d, 0)
  {
    var d := At(cfg.init, b);
    var s1 := State([b], map[b := d], map[b := 0], 1, {b}, 0);
    assert At(s1.due, s1.order[0]) == d;
    FreshFine(cfg, 0);
    FirstStart(cfg, b);
    hide *;
    RunFirst(Fresh(0), cfg, Do(Start(b)), s1, []);
    OvertakingRun(s1, cfg, a, b, d);
    RunFirst(Fresh(0), cfg, Do(Start(b)), s1, Ticking(d - 1) + [Do(Start(a)), Tick]);
    OvertakingForm(a, b, d);
  }

  lemma OvertakingForm(a: int, b: int, d: int)
    requires d >= 1
    ensures Overtaking(a, b, d) == [Do(Start(b))] + (Ticking(d - 1) + [Do(Start(a)), Tick])
  {
  }

  lemma OvertakingRun(s: State, cfg: Config, a: int, b: int, d: int)
    requires s == State([b], map[b := d], map[b := 0], 1, {b}, 0) && RunInv(s, cfg) && At(s.due, b) == d
    requires At(cfg.init, a) == 0 && At(cfg.init, b) == d >= 1 && CallsOf(cfg, a) == []
    ensures var log := Run(s, cfg, Ticking(d - 1) + [Do(Start(a)), Tick]).1;
            |log| >= 2 && log[0] == Firing(a, d, d - 1, 1) && log[1] == Firing(b, d, d, 0)
  {
    hide *;
    var s1 := s.(now := d - 1);
    QuietTicks(s, cfg, d - 1);
    RunConcat(s, cfg, Ticking(d - 1), [Do(Start(a)), Tick]);
    LastSteps(s1, cfg, a, b, d);
    var log := Run(s1, cfg, [Do(Start(a)), Tick]).1;
    assert [] + log == log;
  }

  lemma RunFirst(s: State, cfg: Config, op: Op, s1: State, ops: seq<Op>)
    requires RunInv(s, cfg) && Step(s, cfg, op) == (s1, [])
    ensures RunInv(s1, cfg) && Run(s, cfg, [op] + ops) == Run(s1, cfg, ops)
  {
    hide RunInv, Step;
    assert ([op] + ops)[1..] == ops;
    RunForm(s, cfg, [op] + ops);
    var r := Run(s1, cfg, ops);
    assert [] + r.1 == r.1;
    assert Run(s, cfg, [op] + ops) == (r.0, r.1);
  }

  lemma FirstStart(cfg: Config, b: int)
    requires RunInv(Fresh(0), cfg)
    ensures Step(Fresh(0), cfg, Do(Start(b))) == (State([b], map[b := At(cfg.init, b)], map[b := 0], 1, {b}, 0), [])
  {
    assert Started(Fresh(0), cfg, b) == State([b], map[b := At(cfg.init, b)], map[b := 0], 1, {b}, 0);
  }

  lemma LastSteps(s: State, cfg: Config, a: int, b: int, d: int)
    requires s == State([b], map[b := d], map[b := 0], 1, {b}, d - 1) && RunInv(s, cfg)
    requires At(cfg.init, a) == 0 && At(cfg.init, b) == d >= 1 && CallsOf(cfg, a) == []
    ensures var log := Run(s, cfg, [Do(Start(a)), Tick]).1;
            |log| >= 2 && log[0] == Firing(a, d, d - 1, 1) && log[1] == Firing(b, d, d, 0)
  {
    var s1 := State([a, b], map[b := d, a := d - 1], map[b := 0, a := 1], 2, {a, b}, d - 1);
    SecondStart(s, cfg, a, b, d);
    RunFirst(s, cfg, Do(Start(a)), s1, [Tick]);
    assert [Do(Start(a))] + [Tick] == [Do(Start(a)), Tick];
    RunForm(s1, cfg, [Tick]);
    BothFire(s1, cfg, a, b, d);
  }

  lemma SecondStart(s: State, cfg: Config, a: int, b: int, d: int)
    requires s == State([b], map[b := d], map[b := 0], 1, {b}, d - 1) && RunInv(s, cfg)
    requires At(cfg.init, a) == 0 && a != b
    ensures Step(s, cfg, Do(Start(a)))
         == (State([a, b], map[b := d, a := d - 1], map[b := 0, a := 1], 2, {a, b}, d - 1), [])
  {
    MinusMembers([b], a);
    var due := map[b := d, a := d - 1];
    assert Scan([b], due, d - 1) == 0;
    assert Started(s, cfg, a) == State([a, b], due, map[b := 0, a := 1], 2, {a, b}, d - 1);
  }

  lemma BothFire(s: State, cfg: Config, a: int, b: int, d: int)
    requires s == State([a, b], map[b := d, a := d - 1], map[b := 0, a := 1], 2, {a, b}, d - 1) && RunInv(s, cfg)
    requires At(cfg.init, a) == 0 && a != b && CallsOf(cfg, a) == []
    ensures var log := Step(s, cfg, Tick).1;
            |log| >= 2 && log[0] == Firing(a, d, d - 1, 1) && log[1] == Firing(b, d, d, 0)
  {
    var s0 := s.(now := d);
    GoodAnyway(s, d, s.flags);
    CheckedForm(s0, cfg);
    assert a in cfg.periodic ==> Startable(cfg, a);
    assert Fire(s0, cfg) == s0.(order := [b], flags := {b});
    CheckedForm(s0.(order := [b], flags := {b}), cfg);
  }

  /** The exact condition, for timers whose callbacks touch no timer: over all runs of initialised timers firings at one
      instant come in start order if and only if delays are not mixed. */
  lemma StartOrderExact(cfg: Config)
    requires DelaysPositive(cfg) && forall t {:trigger At(cfg.init, t)} :: At(cfg.init, t) >= 0
    requires forall t {:trigger CallsOf(cfg, t)} :: CallsOf(cfg, t) == []
    ensures RunInv(Fresh(0), cfg)
    ensures (forall ops {:trigger Run(Fresh(0), cfg, ops)} ::
               OpsKnown(cfg, ops) ==> StartOrdered(Run(Fresh(0), cfg, ops).1)) <==> !DelaysMixed(cfg)
  {
    FreshFine(cfg, 0);
    if DelaysMixed(cfg) {
      var a, b :| a in cfg.init && b in cfg.init && cfg.init[a] == 0 && cfg.init[b] >= 1;
      ZeroDelayOvertakes(cfg, a, b);
      var ops := Overtaking(a, b, cfg.init[b]);
      assert OpsKnown(cfg, ops);
      assert !StartOrdered(Run(Fresh(0), cfg, ops).1);
    } else {
      forall ops {:trigger Run(Fresh(0), cfg, ops)} | OpsKnown(cfg, ops)
        ensures StartOrdered(Run(Fresh(0), cfg, ops).1)
      {
        StartOrder(Fresh(0), cfg, ops);
      }
    }
  }

  /** Timers of delays 2 and 1, started a tick apart, fire at the same instant in start order: a run with all that
      StartOrder asks for. */
  lemma MeetInOrder()
    ensures var cfg := Config(map[1 := 2, 2 := 1], {}, map[]);
            var ops := [Do(Start(1)), Tick, Do(Start(2)), Tick];
            && RunInv(Fresh(0), cfg) && TicketsOk(Fresh(0)) && Punctual(Fresh(0), cfg) && ListKnown(Fresh(0), cfg)
            && OpsKnown(cfg, ops) && !DelaysMixed(cfg)
            && Run(Fresh(0), cfg, ops).1 == [Firing(1, 2, 2, 0), Firing(2, 2, 2, 1)]
  {
    var cfg := Config(map[1 := 2, 2 := 1], {}, map[]);
    hide Run, Step, RunInv, TicketsOk, Punctual;
    MeetFine(cfg);
    FreshFine(cfg, 0);
    FirstStart(cfg, 1);
    assert At(cfg.init, 1) == 2;
    MeetRun(cfg);
  }

  lemma MeetFine(cfg: Config)
    requires cfg == Config(map[1 := 2, 2 := 1], {}, map[])
    ensures DelaysPositive(cfg) && !DelaysMixed(cfg) && forall t {:trigger At(cfg.init, t)} :: At(cfg.init, t) >= 0
  {
  }

  lemma MeetRun(cfg: Config)
    requires cfg == Config(map[1 := 2, 2 := 1], {}, map[]) && RunInv(Fresh(0), cfg)
    requires Step(Fresh(0), cfg, Do(Start(1))) == (State([1], map[1 := 2], map[1 := 0], 1, {1}, 0), [])
    ensures Run(Fresh(0), cfg, [Do(Start(1)), Tick, Do(Start(2)), Tick]).1 == [Firing(1, 2, 2, 0), Firing(2, 2, 2, 1)]
  {
    hide *;
    var s1 := State([1], map[1 := 2], map[1 := 0], 1, {1}, 0);
    var s2, s3 := s1.(now := 1), State([1, 2], map[1 := 2, 2 := 2], map[1 := 0, 2 := 1], 2, {1, 2}, 1);
    RunFirst(Fresh(0), cfg, Do(Start(1)), s1, [Tick, Do(Start(2)), Tick]);
    Waiting(s1, cfg);
    RunFirst(s1, cfg, Tick, s2, [Do(Start(2)), Tick]);
    LateStart(s2, cfg);
    RunFirst(s2, cfg, Do(Start(2)), s3, [Tick]);
    RunForm(s3, cfg, [Tick]);
    BothOnTime(s3, cfg);
    NoOps(Step(s3, cfg, Tick).0, cfg);
    assert [Do(Start(1))] + [Tick, Do(Start(2)), Tick] == [Do(Start(1)), Tick, Do(Start(2)), Tick];
    assert [Tick] + [Do(Start(2)), Tick] == [Tick, Do(Start(2)), Tick];
    assert [Do(Start(2))] + [Tick] == [Do(Start(2)), Tick] && [Tick][1..] == [];
  }

  lemma Waiting(s: State, cfg: Config)
    requires s == State([1], map[1 := 2], map[1 := 0], 1, {1}, 0) && RunInv(s, cfg)
    ensures Step(s, cfg, Tick) == (s.(now := 1), [])
  {
    QuietTick(s, cfg);
  }

  lemma NoOps(s: State, cfg: Config)
    requires RunInv(s, cfg)
    ensures Run(s, cfg, []) == (s, [])
  {
  }

  lemma LateStart(s: State, cfg: Config)
    requires cfg == Config(map[1 := 2, 2 := 1], {}, map[]) && s == State([1], map[1 := 2], map[1 := 0], 1, {1}, 1)
    requires RunInv(s, cfg)
    ensures Step(s, cfg, Do(Start(2))) == (State([1, 2], map[1 := 2, 2 := 2], map[1 := 0, 2 := 1], 2, {1, 2}, 1), [])
  {
    MinusMembers([1], 2);
    assert Scan([1], map[1 := 2, 2 := 2], 2) == 1;
    assert Started(s, cfg, 2) == State([1, 2], map[1 := 2, 2 := 2], map[1 := 0, 2 := 1], 2, {1, 2}, 1);
  }

  lemma BothOnTime(s: State, cfg: Config)
    requires cfg == Config(map[1 := 2, 2 := 1], {}, map[]) && RunInv(s, cfg)
    requires s == State([1, 2], map[1 := 2, 2 := 2], map[1 := 0, 2 := 1], 2, {1, 2}, 1)
    ensures Step(s, cfg, Tick).1 == [Firing(1, 2, 2, 0), Firing(2, 2, 2, 1)]
  {
    var s0 := s.(now := 2);
    var s1, s2 := s0.(order := [2], flags := {2}), s0.(order := [], flags := {});
    assert Fire(s0, cfg) == s1 && Fire(s1, cfg) == s2;
    CheckedForm(s0, cfg);
    CheckedForm(s1, cfg);
    CheckedForm(s2, cfg);
  }
}
