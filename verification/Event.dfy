/** Event sets (ipc.c): the traversal of rt_event_send and what it means for the waiters. */
module Event {
  import opened Ffs
  import opened Scheduler
  import opened Seqs
  import opened IpcList
  import Others

  const EOK: int := 0
  const ERROR: int := 1
  const ETIMEOUT: int := 2

  /** RT_EVENT_FLAG_AND, _OR and _CLEAR; AND takes precedence. */
  datatype Option = Option(and: bool, or: bool, clear: bool)

  function WantOf(want: map<Thread, bv32>, t: Thread): bv32 { if t in want then want[t] else 0 }

  function InfoOf(info: map<Thread, Option>, t: Thread): Option {
    if t in info then info[t] else Option(false, false, false)
  }

  /** The condition a receiver waits for. */
  predicate Satisfied(o: Option, want: bv32, events: bv32) {
    if o.and then And32(want, events) == want else o.or && And32(want, events) != 0
  }

  /** What a satisfied receiver is told. */
  function Received(o: Option, want: bv32, events: bv32): bv32 {
    if o.and then want else And32(want, events)
  }

  predicate Within(a: bv32, b: bv32) { And32(a, b) == a }

  /** Bit by bit: AND needs every event wanted, OR at least one of them. */
  lemma SatisfiedMeans(o: Option, want: bv32, events: bv32)
    ensures Satisfied(o, want, events) <==>
              if o.and then forall i {:trigger Bit32(want, i)} :: Bit32(want, i) ==> Bit32(events, i)
              else o.or && exists i {:trigger Bit32(want, i)} :: Bit32(want, i) && Bit32(events, i)
  {
    hide And32, AndNot32, Bit32, Lowest32, RtFfs;
    forall i ensures Bit32(And32(want, events), i) <==> Bit32(want, i) && Bit32(events, i) {
      AndBit32(want, events, i);
    }
    if o.and && And32(want, events) != want {
      var missing := AndNot32(want, events);
      NoneMissing(want, events);
      SomeBit(missing);
      AndNotBit32(want, events, RtFfs(missing) - 1);
    }
    if And32(want, events) != 0 {
      SomeBit(And32(want, events));
      AndBit32(want, events, RtFfs(And32(want, events)) - 1);
    }
    forall i | Bit32(want, i) && Bit32(events, i) ensures And32(want, events) != 0 {
      BitNotZero32(And32(want, events), i);
    }
  }

  lemma NoneMissing(want: bv32, events: bv32)
    ensures AndNot32(want, events) == 0 <==> And32(want, events) == want
  {
  }

  lemma SomeBit(g: bv32)
    requires g != 0
    ensures Bit32(g, RtFfs(g) - 1)
  {
    hide RtFfs, Bit32;
    RtFfsLowest(g);
  }

  /** The events it is told, bit by bit: those it waits for that are there. */
  lemma ReceivedMeans(o: Option, want: bv32, events: bv32, i: int)
    requires Satisfied(o, want, events)
    ensures Bit32(Received(o, want, events), i) <==> Bit32(want, i) && Bit32(events, i)
  {
    ReceivedIs(o, want, events);
    hide *;
    AndBit32(want, events, i);
  }

  // Facts about 32-bit masks.

  lemma WithinFacts(a: bv32, b: bv32, c: bv32)
    requires Within(a, b)
    ensures Within(b, c) ==> Within(a, c)
    ensures And32(a, c) != 0 ==> And32(b, c) != 0
  {
  }

  lemma AndCommutes(a: bv32, b: bv32)
    ensures And32(a, b) == And32(b, a)
  {
  }

  lemma WithinSelf(a: bv32)
    ensures Within(a, a)
  {
  }

  lemma AndNotWithin(a: bv32, m: bv32)
    ensures Within(AndNot32(a, m), a) && And32(AndNot32(a, m), m) == 0
  {
  }

  lemma AndWithin(a: bv32, b: bv32)
    ensures Within(And32(a, b), a) && Within(And32(a, b), b)
  {
  }

  lemma AndNotTwice(a: bv32, m: bv32, n: bv32)
    ensures AndNot32(AndNot32(a, m), n) == AndNot32(a, Or32(m, n))
  {
  }

  lemma OrWithin(a: bv32, m: bv32, n: bv32)
    requires Within(m, a) && Within(n, a)
    ensures Within(Or32(m, n), a)
  {
  }

  lemma NothingTaken(a: bv32)
    ensures AndNot32(a, 0) == a && Within(0, a) && Or32(0, a) == a && And32(a, 0) == 0
  {
  }

  /** Both conditions are monotone in the event set: fewer events satisfy less. */
  lemma SatisfiedMonotone(o: Option, want: bv32, fewer: bv32, more: bv32)
    requires Within(fewer, more) && Satisfied(o, want, fewer)
    ensures Satisfied(o, want, more)
  {
    hide And32;
    if o.and {
      AllWithin(want, fewer, more);
    } else {
      AndCommutes(want, fewer);
      AndCommutes(want, more);
      WithinFacts(fewer, more, want);
    }
  }

  lemma AllWithin(want: bv32, fewer: bv32, more: bv32)
    requires Within(want, fewer) && Within(fewer, more)
    ensures And32(want, more) == want
  {
    WithinFacts(want, fewer, more);
  }

  // The traversal.

  /** One waiter woken, with the events it is told. */
  datatype Grant = Grant(thread: Thread, events: bv32)

  /** Events left, waiters left, and grants in order. */
  datatype Delivery = Delivery(events: bv32, kept: seq<Thread>, grants: seq<Grant>)

  function Deliver(events: bv32, q: seq<Thread>, want: map<Thread, bv32>, info: map<Thread, Option>): Delivery {
    if q == [] then Delivery(events, [], [])
    else
      var t, o := q[0], InfoOf(info, q[0]);
      if Satisfied(o, WantOf(want, t), events) then
        var got := Received(o, WantOf(want, t), events);
        var d := Deliver(if o.clear then AndNot32(events, got) else events, q[1..], want, info);
        d.(grants := [Grant(t, got)] + d.grants)
      else
        var d := Deliver(events, q[1..], want, info);
        d.(kept := [t] + d.kept)
  }

  lemma {:induction false} DeliverShrinks(events: bv32, q: seq<Thread>, want: map<Thread, bv32>,
                                          info: map<Thread, Option>)
    ensures Within(Deliver(events, q, want, info).events, events)
    decreases |q|
  {
    hide And32, AndNot32;
    WithinSelf(events);
    if q != [] {
      var t, o := q[0], InfoOf(info, q[0]);
      if Satisfied(o, WantOf(want, t), events) && o.clear {
        var got := Received(o, WantOf(want, t), events);
        var rest := AndNot32(events, got);
        DeliverShrinks(rest, q[1..], want, info);
        AndNotWithin(events, got);
        WithinFacts(Deliver(rest, q[1..], want, info).events, rest, events);
      } else {
        DeliverShrinks(events, q[1..], want, info);
      }
    }
  }

  /** Nobody is stranded: the condition of no remaining waiter holds of the remaining events, although events were
      cleared and waiters unlinked on the way. */
  lemma {:induction false} DeliverStrandsNobody(events: bv32, q: seq<Thread>, want: map<Thread, bv32>,
                                          info: map<Thread, Option>, w: Thread)
    ensures var d := Deliver(events, q, want, info);
            w in d.kept ==> w in q && !Satisfied(InfoOf(info, w), WantOf(want, w), d.events)
    decreases |q|
  {
    hide And32, AndNot32, Satisfied, Within, Received;
    var d := Deliver(events, q, want, info);
    if q != [] && w in d.kept {
      var t, o := q[0], InfoOf(info, q[0]);
      if Satisfied(o, WantOf(want, t), events) {
        DeliverStrandsNobody(if o.clear then AndNot32(events, Received(o, WantOf(want, t), events))
                             else events, q[1..], want, info, w);
      } else {
        DeliverStrandsNobody(events, q[1..], want, info, w);
        if w == t {
          DeliverShrinks(events, q, want, info);
          if Satisfied(o, WantOf(want, t), d.events) {
            SatisfiedMonotone(o, WantOf(want, t), d.events, events);
          }
        }
      }
    }
  }

  /** The events taken by the receivers that clear. */
  function Taken(grants: seq<Grant>, info: map<Thread, Option>): bv32 {
    if grants == [] then 0
    else if InfoOf(info, grants[0].thread).clear then Or32(grants[0].events, Taken(grants[1..], info))
    else Taken(grants[1..], info)
  }

  lemma ReceivedWithin(o: Option, want: bv32, events: bv32)
    requires Satisfied(o, want, events)
    ensures Within(Received(o, want, events), events) && Within(Received(o, want, events), want)
    ensures Satisfied(o, want, Received(o, want, events))
  {
    hide And32;
    WithinSelf(want);
    if !o.and {
      AndWithin(want, events);
      AndCommutes(want, And32(want, events));
    }
  }

  /** It is told exactly those events it waits for that are there. */
  lemma ReceivedIs(o: Option, want: bv32, events: bv32)
    requires Satisfied(o, want, events)
    ensures Received(o, want, events) == And32(want, events)
  {
    hide And32;
  }

  /** The traversal, waiter by waiter: the next one is granted exactly if its condition holds for the events that those
      before it have left, and it is told those of them it waits for; clearing takes these. */
  lemma {:induction false} DeliverNext(events: bv32, q: seq<Thread>, t: Thread, want: map<Thread, bv32>,
                                       info: map<Thread, Option>)
    ensures var d, d' := Deliver(events, q, want, info), Deliver(events, q + [t], want, info);
            var o, got := InfoOf(info, t), And32(WantOf(want, t), d.events);
            d' == if Satisfied(o, WantOf(want, t), d.events)
                  then Delivery(if o.clear then AndNot32(d.events, got) else d.events, d.kept,
                                d.grants + [Grant(t, got)])
                  else Delivery(d.events, d.kept + [t], d.grants)
    decreases |q|
  {
    hide *;
    if q == [] {
      DeliverOne(events, q, t, want, info);
    } else {
      var left := LeftBy(events, q[0], want, info);
      assert (q + [t])[0] == q[0] && (q + [t])[1..] == q[1..] + [t];
      DeliverFirst(events, q, want, info);
      DeliverFirst(events, q + [t], want, info);
      DeliverNext(left, q[1..], t, want, info);
      ghost var d := Deliver(left, q[1..], want, info);
      ghost var x := Grant(t, And32(WantOf(want, t), d.events));
      ghost var y := Grant(q[0], Received(InfoOf(info, q[0]), WantOf(want, q[0]), events));
      assert [y] + (d.grants + [x]) == ([y] + d.grants) + [x];
      assert [q[0]] + (d.kept + [t]) == ([q[0]] + d.kept) + [t];
    }
  }

  lemma DeliverOne(events: bv32, q: seq<Thread>, t: Thread, want: map<Thread, bv32>, info: map<Thread, Option>)
    requires q == []
    ensures Deliver(events, q, want, info) == Delivery(events, [], [])
    ensures var o, got := InfoOf(info, t), And32(WantOf(want, t), events);
            Deliver(events, q + [t], want, info) ==
            if Satisfied(o, WantOf(want, t), events)
            then Delivery(if o.clear then AndNot32(events, got) else events, [], [Grant(t, got)])
            else Delivery(events, [t], [])
  {
    hide And32, AndNot32, Satisfied, Received;
    assert q + [t] == [t] && [t][1..] == [];
    if Satisfied(InfoOf(info, t), WantOf(want, t), events) {
      ReceivedIs(InfoOf(info, t), WantOf(want, t), events);
    }
  }

  /** The events the first waiter leaves. */
  function LeftBy(events: bv32, t: Thread, want: map<Thread, bv32>, info: map<Thread, Option>): bv32 {
    var o := InfoOf(info, t);
    if Satisfied(o, WantOf(want, t), events) && o.clear then AndNot32(events, Received(o, WantOf(want, t), events))
    else events
  }

  lemma DeliverFirst(events: bv32, q: seq<Thread>, want: map<Thread, bv32>, info: map<Thread, Option>)
    requires q != []
    ensures var d := Deliver(LeftBy(events, q[0], want, info), q[1..], want, info);
            var got := Received(InfoOf(info, q[0]), WantOf(want, q[0]), events);
            && (Satisfied(InfoOf(info, q[0]), WantOf(want, q[0]), events) ==>
                Deliver(events, q, want, info) == Delivery(d.events, d.kept, [Grant(q[0], got)] + d.grants))
            && (!Satisfied(InfoOf(info, q[0]), WantOf(want, q[0]), events) ==>
                Deliver(events, q, want, info) == Delivery(d.events, [q[0]] + d.kept, d.grants))
  {
    hide Satisfied, Received, AndNot32;
  }

  /** Conservation: the events left and the events taken by clearing receivers make up the events sent, without
      overlap. */
  lemma {:induction false} DeliverConserves(events: bv32, q: seq<Thread>, want: map<Thread, bv32>,
                                          info: map<Thread, Option>)
    ensures var d := Deliver(events, q, want, info);
            Within(Taken(d.grants, info), events) && d.events == AndNot32(events, Taken(d.grants, info))
    decreases |q|
  {
    hide And32, AndNot32, Or32, Satisfied, Received, Within;
    NothingTaken(events);
    if q != [] {
      var t, o := q[0], InfoOf(info, q[0]);
      if Satisfied(o, WantOf(want, t), events) {
        var got := Received(o, WantOf(want, t), events);
        var rest := if o.clear then AndNot32(events, got) else events;
        var d := Deliver(rest, q[1..], want, info);
        DeliverConserves(rest, q[1..], want, info);
        assert ([Grant(t, got)] + d.grants)[1..] == d.grants;
        if o.clear {
          ReceivedWithin(o, WantOf(want, t), events);
          AndNotWithin(events, got);
          WithinFacts(Taken(d.grants, info), rest, events);
          OrWithin(events, got, Taken(d.grants, info));
          AndNotTwice(events, got, Taken(d.grants, info));
        }
      } else {
        DeliverConserves(events, q[1..], want, info);
      }
    }
  }

  /** No event goes to two receivers that clear. */
  lemma {:induction false} DeliverDisjoint(events: bv32, q: seq<Thread>, want: map<Thread, bv32>,
                                          info: map<Thread, Option>, i: nat, j: nat)
    requires i < j < |Deliver(events, q, want, info).grants|
    ensures var g := Deliver(events, q, want, info).grants;
            InfoOf(info, g[i].thread).clear ==> And32(g[i].events, g[j].events) == 0
    decreases |q|
  {
    hide And32, AndNot32, Satisfied, Received, Within;
    var t, o := q[0], InfoOf(info, q[0]);
    if Satisfied(o, WantOf(want, t), events) {
      var got := Received(o, WantOf(want, t), events);
      var rest := if o.clear then AndNot32(events, got) else events;
      if i > 0 {
        DeliverDisjoint(rest, q[1..], want, info, i - 1, j - 1);
      } else if o.clear {
        GrantWithin(rest, q[1..], want, info, j - 1);
        var later := Deliver(rest, q[1..], want, info).grants[j - 1].events;
        AndNotWithin(events, got);
        Apart(got, rest, later);
      }
    } else {
      DeliverDisjoint(events, q[1..], want, info, i, j);
    }
  }

  lemma Apart(a: bv32, b: bv32, c: bv32)
    requires And32(b, a) == 0 && Within(c, b)
    ensures And32(a, c) == 0
  {
  }

  /** Each grant is within the events, within what its receiver wants, and enough for it. */
  lemma {:induction false} GrantWithin(events: bv32, q: seq<Thread>, want: map<Thread, bv32>, info: map<Thread, Option>,
                                       k: nat)
    requires k < |Deliver(events, q, want, info).grants|
    ensures var g := Deliver(events, q, want, info).grants[k];
            && Within(g.events, events) && g.thread in q
            && Satisfied(InfoOf(info, g.thread), WantOf(want, g.thread), g.events)
            && Within(g.events, WantOf(want, g.thread))
    decreases |q|
  {
    hide And32, AndNot32, Satisfied, Received, Within;
    var t, o := q[0], InfoOf(info, q[0]);
    if Satisfied(o, WantOf(want, t), events) {
      var got := Received(o, WantOf(want, t), events);
      var rest := if o.clear then AndNot32(events, got) else events;
      ReceivedWithin(o, WantOf(want, t), events);
      if k > 0 {
        GrantWithin(rest, q[1..], want, info, k - 1);
        AndNotWithin(events, got);
        var g := Deliver(rest, q[1..], want, info).grants[k - 1];
        if o.clear {
          WithinFacts(g.events, rest, events);
        }
      }
    } else {
      GrantWithin(events, q[1..], want, info, k);
    }
  }

  /** The traversal has passed i of the waiters q still listed. */
  ghost predicate Progress(events0: bv32, q0: seq<Thread>, want: map<Thread, bv32>, info: map<Thread, Option>,
                           events: bv32, q: seq<Thread>, i: nat, grants: seq<Grant>) {
    i <= |q|
    && var d0, d := Deliver(events0, q0, want, info), Deliver(events, q[i..], want, info);
       d0.events == d.events && d0.kept == q[..i] + d.kept && d0.grants == grants + d.grants
  }

  lemma ProgressKeep(events0: bv32, q0: seq<Thread>, want: map<Thread, bv32>, info: map<Thread, Option>,
                     events: bv32, q: seq<Thread>, i: nat, grants: seq<Grant>)
    requires Progress(events0, q0, want, info, events, q, i, grants) && i < |q|
    requires !Satisfied(InfoOf(info, q[i]), WantOf(want, q[i]), events)
    ensures Progress(events0, q0, want, info, events, q, i + 1, grants)
  {
    hide Satisfied;
    assert q[i..][1..] == q[i + 1..];
    assert q[..i] + [q[i]] == q[..i + 1];
  }

  lemma ProgressGrant(events0: bv32, q0: seq<Thread>, want: map<Thread, bv32>, info: map<Thread, Option>,
                      events: bv32, q: seq<Thread>, i: nat, grants: seq<Grant>)
    requires Progress(events0, q0, want, info, events, q, i, grants) && i < |q| && NoRepeats(q)
    requires Satisfied(InfoOf(info, q[i]), WantOf(want, q[i]), events)
    ensures var o := InfoOf(info, q[i]);
            var got := Received(o, WantOf(want, q[i]), events);
            Progress(events0, q0, want, info, if o.clear then AndNot32(events, got)
                     else events, Minus(q, q[i]), i, grants + [Grant(q[i], got)])
  {
    hide Satisfied, NoRepeats, Received, AndNot32, Minus, Deliver, InfoOf, WantOf;
    var o := InfoOf(info, q[i]);
    var got := Received(o, WantOf(want, q[i]), events);
    MinusAt(q, i);
    CutOut(q, i);
    DeliverHit(events, q[i..], want, info);
    var d := Deliver(if o.clear then AndNot32(events, got) else events, q[i + 1..], want, info);
    assert grants + ([Grant(q[i], got)] + d.grants) == grants + [Grant(q[i], got)] + d.grants;
  }

  lemma CutOut(q: seq<Thread>, i: nat)
    requires i < |q|
    ensures var q' := q[..i] + q[i + 1..];
            q[i..] != [] && q[i..][0] == q[i] && q[i..][1..] == q[i + 1..] && q'[i..] == q[i + 1..] && q'[..i] == q[..i]
              && i <= |q'|
  {
  }

  lemma DeliverHit(events: bv32, q: seq<Thread>, want: map<Thread, bv32>, info: map<Thread, Option>)
    requires q != [] && Satisfied(InfoOf(info, q[0]), WantOf(want, q[0]), events)
    ensures var o := InfoOf(info, q[0]);
            var got := Received(o, WantOf(want, q[0]), events);
            var d := Deliver(if o.clear then AndNot32(events, got) else events, q[1..], want, info);
            Deliver(events, q, want, info) == Delivery(d.events, d.kept, [Grant(q[0], got)] + d.grants)
  {
    hide Satisfied, Received, AndNot32;
  }

  function Threads(grants: seq<Grant>): set<Thread> {
    set g <- grants :: g.thread
  }

  /** The threads in the order in which they are resumed. */
  function Order(grants: seq<Grant>): (r: seq<Thread>)
    ensures |r| == |grants|
  {
    seq(|grants|, i requires 0 <= i < |grants| => grants[i].thread)
  }

  lemma OrderNext(grants: seq<Grant>, g: Grant)
    ensures Order(grants + [g]) == Order(grants) + [g.thread] && Order([]) == []
  {
  }

  /** thread->event_set after the grants. */
  function Recorded(want: map<Thread, bv32>, grants: seq<Grant>): map<Thread, bv32> {
    if grants == [] then want
    else
      var g := grants[|grants| - 1];
      Recorded(want, grants[..|grants| - 1])[g.thread := g.events]
  }

  /** The parts of the state that the traversal changes. */
  datatype Round = Round(events: bv32, waiters: seq<Thread>, want: map<Thread, bv32>, pending: set<Thread>, sys: Sys)

  /** r' is r after delivery d: the remaining events, the waiters passed over, and the others resumed in order with what
      they are told. */
  ghost predicate Delivered(r: Round, r': Round, d: Delivery) {
    && r'.events == d.events && r'.waiters == d.kept
    && r'.want == Recorded(r.want, d.grants) && r'.pending == r.pending + Threads(d.grants)
    && r'.sys == Resumed(r.sys, Order(d.grants))
    && forall u {:trigger u in r'.waiters} :: u in r'.waiters ==> u !in Threads(d.grants)
  }

  /** The traversal that began in r0 is in r, has passed i of the waiters still listed, and has made these grants. */
  ghost predicate Passed(r0: Round, r: Round, info: map<Thread, Option>, i: nat, grants: seq<Grant>) {
    && Progress(r0.events, r0.waiters, r0.want, info, r.events, r.waiters, i, grants)
    && r.want == Recorded(r0.want, grants) && r.pending == r0.pending + Threads(grants)
    && r.sys == Resumed(r0.sys, Order(grants))
    && forall u {:trigger u in r.waiters} :: u in r.waiters ==> u !in Threads(grants)
  }

  lemma PassedStart(r0: Round, info: map<Thread, Option>)
    ensures Passed(r0, r0, info, 0, [])
  {
    hide Progress, Recorded, Resumed;
    StartsEmpty(r0.events, r0.waiters, r0.want, info);
    NobodyResumed(r0.sys);
  }

  lemma PassedKeep(r0: Round, r: Round, info: map<Thread, Option>, i: nat, grants: seq<Grant>)
    requires Passed(r0, r, info, i, grants) && i < |r.waiters|
    requires !Satisfied(InfoOf(info, r.waiters[i]), WantOf(r.want, r.waiters[i]), r.events)
    ensures Passed(r0, r, info, i + 1, grants)
  {
    hide Satisfied, Progress, Recorded, Resumed;
    assert r.waiters[i] in r.waiters;
    RecordedElsewhere(r0.want, grants, r.waiters[i]);
    ProgressKeep(r0.events, r0.waiters, r0.want, info, r.events, r.waiters, i, grants);
  }

  lemma PassedGrant(r0: Round, r: Round, r': Round, info: map<Thread, Option>, i: nat, grants: seq<Grant>, got: bv32)
    requires Passed(r0, r, info, i, grants) && i < |r.waiters| && NoRepeats(r.waiters)
    requires var t := r.waiters[i];
             var o := InfoOf(info, t);
             && Satisfied(o, WantOf(r.want, t), r.events) && got == Received(o, WantOf(r.want, t), r.events)
             && t in r.sys.tcb
             && r'.events == (if o.clear then AndNot32(r.events, got) else r.events)
             && r'.waiters == Minus(r.waiters, t) && (forall u {:trigger u in r'.waiters} :: u in r'.waiters ==>
                                                     u in r.waiters && u != t)
             && r'.want == r.want[t := got] && r'.pending == r.pending + {t} && r'.sys == Inserted(r.sys, t)
    ensures Passed(r0, r', info, i, grants + [Grant(r.waiters[i], got)])
  {
    hide Satisfied, Received, Progress, Recorded, Resumed, Inserted, Minus, NoRepeats, Order;
    var t := r.waiters[i];
    assert t in r.waiters;
    RecordedElsewhere(r0.want, grants, t);
    ProgressGrant(r0.events, r0.waiters, r0.want, info, r.events, r.waiters, i, grants);
    RecordGrant(r0.want, grants, Grant(t, got));
    ResumedNext(r0.sys, Order(grants), t);
    OrderNext(grants, Grant(t, got));
  }

  lemma PassedEnd(r0: Round, r: Round, info: map<Thread, Option>, i: nat, grants: seq<Grant>)
    requires Passed(r0, r, info, i, grants) && i == |r.waiters|
    ensures var d := Deliver(r0.events, r0.waiters, r0.want, info);
            (grants != [] <==> d.grants != []) && Delivered(r0, r, d)
  {
    hide Recorded, Resumed;
    EndsEmpty(r.events, r.waiters, r0.want, info);
    assert grants + [] == grants;
  }

  /** Waiters have said what they want. */
  ghost predicate Asked(waiters: seq<Thread>, want: map<Thread, bv32>, info: map<Thread, Option>,
                        asked: map<Thread, bv32>, error: map<Thread, int>) {
    forall w {:trigger w in waiters} :: w in waiters ==>
      && w in want && w in info && w in asked && asked[w] == want[w] && (info[w].and || info[w].or)
      && w in error && error[w] == EOK
  }

  ghost predicate NobodyStranded(waiters: seq<Thread>, want: map<Thread, bv32>, info: map<Thread, Option>,
                                 events: bv32) {
    forall w {:trigger w in waiters} :: w in waiters ==> !Satisfied(InfoOf(info, w), WantOf(want, w), events)
  }

  /** Threads woken inside rt_event_recv and not yet returned: success means events that are enough for them. */
  ghost predicate PendingOk(waiters: seq<Thread>, pending: set<Thread>, want: map<Thread, bv32>,
                            info: map<Thread, Option>,
                            asked: map<Thread, bv32>, error: map<Thread, int>) {
    forall t {:trigger t in pending} :: t in pending ==> t !in waiters && PendingAt(t, want, info, asked, error)
  }

  ghost predicate PendingAt(t: Thread, want: map<Thread, bv32>, info: map<Thread, Option>, asked: map<Thread, bv32>,
                            error: map<Thread, int>) {
    && t in error && (error[t] == EOK || error[t] == ETIMEOUT || error[t] == ERROR)
    && (error[t] == EOK ==> t in want && t in info && t in asked
                            && Satisfied(info[t], asked[t], want[t]) && Within(want[t], asked[t]))
  }

  lemma StrandsNobody(events: bv32, q: seq<Thread>, want: map<Thread, bv32>, info: map<Thread, Option>)
    ensures NobodyStranded(Deliver(events, q, want, info).kept, want, info, Deliver(events, q, want, info).events)
  {
    hide Satisfied, Deliver;
    forall w | w in Deliver(events, q, want, info).kept
      ensures !Satisfied(InfoOf(info, w), WantOf(want, w), Deliver(events, q, want, info).events)
    {
      DeliverStrandsNobody(events, q, want, info, w);
    }
  }

  lemma FewerStrandNobody(q: seq<Thread>, want: map<Thread, bv32>, info: map<Thread, Option>, more: bv32, fewer: bv32)
    requires NobodyStranded(q, want, info, more) && Within(fewer, more)
    ensures NobodyStranded(q, want, info, fewer)
  {
    hide Satisfied, Within;
    forall w | w in q ensures !Satisfied(InfoOf(info, w), WantOf(want, w), fewer) {
      if Satisfied(InfoOf(info, w), WantOf(want, w), fewer) {
        SatisfiedMonotone(InfoOf(info, w), WantOf(want, w), fewer, more);
      }
    }
  }

  /** What else one grant of the traversal keeps. */
  lemma GrantKeeps(waiters: seq<Thread>, i: nat, want: map<Thread, bv32>, info: map<Thread, Option>,
                   asked: map<Thread, bv32>, error: map<Thread, int>,
                   pending: set<Thread>, got: bv32, events: bv32)
    requires i < |waiters| && Asked(waiters, want, info, asked, error)
             && PendingOk(waiters, pending, want, info, asked, error)
    requires NoRepeats(waiters) && Satisfied(InfoOf(info, waiters[i]), WantOf(want, waiters[i]), events)
    requires got == Received(InfoOf(info, waiters[i]), WantOf(want, waiters[i]), events)
    ensures var t := waiters[i];
            && Asked(Minus(waiters, t), want[t := got], info, asked, error)
            && PendingOk(Minus(waiters, t), pending + {t}, want[t := got], info, asked, error)
  {
    hide Satisfied, Received, NoRepeats, Minus, Within;
    var t := waiters[i];
    assert t in waiters;
    ReceivedWithin(info[t], want[t], events);
    MinusMembers(waiters, t);
    assert PendingAt(t, want[t := got], info, asked, error);
    forall u | u in pending ensures u !in Minus(waiters, t) && PendingAt(u, want[t := got], info, asked, error) {
      assert PendingAt(u, want, info, asked, error);
    }
  }

  lemma RecordGrant(want: map<Thread, bv32>, grants: seq<Grant>, g: Grant)
    ensures Recorded(want, grants + [g]) == Recorded(want, grants)[g.thread := g.events]
    ensures Threads(grants + [g]) == Threads(grants) + {g.thread}
  {
    assert (grants + [g])[..|grants|] == grants;
  }

  /** want is the event_set of the threads not granted yet. */
  lemma {:induction false} RecordedElsewhere(want: map<Thread, bv32>, grants: seq<Grant>, t: Thread)
    requires t !in Threads(grants)
    ensures WantOf(Recorded(want, grants), t) == WantOf(want, t)
  {
    if grants != [] {
      var g, rest := grants[|grants| - 1], grants[..|grants| - 1];
      assert grants == rest + [g];
      assert g in grants && forall x :: x in rest ==> x in grants;
      RecordedElsewhere(want, rest, t);
    }
  }

  // How those who waited were answered, and the order of the list.

  datatype Answer = Granted(events: bv32) | WaitedOut | WasReset

  /** thread->error, and after a success thread->event_set, are what the answer says. */
  ghost predicate AnswersOk(pending: set<Thread>, answer: map<Thread, Answer>, want: map<Thread, bv32>,
                            error: map<Thread, int>) {
    forall t {:trigger t in pending} :: t in pending ==> AnswerOk(t, answer, want, error)
  }

  ghost predicate AnswerOk(t: Thread, answer: map<Thread, Answer>, want: map<Thread, bv32>, error: map<Thread, int>) {
    && t in answer && t in error
    && match answer[t]
       case Granted(e) => error[t] == EOK && t in want && want[t] == e
       case WaitedOut => error[t] == ETIMEOUT
       case WasReset => error[t] == ERROR
  }

  /** The answers after these grants. */
  function Answered(answer: map<Thread, Answer>, grants: seq<Grant>): map<Thread, Answer> {
    if grants == [] then answer
    else
      var g := grants[|grants| - 1];
      Answered(answer, grants[..|grants| - 1])[g.thread := Granted(g.events)]
  }

  /** Exactly the granted threads are answered, each with its events. */
  ghost predicate AllGranted(answer: map<Thread, Answer>, answer': map<Thread, Answer>, grants: seq<Grant>) {
    && (forall k {:trigger grants[k]} :: 0 <= k < |grants| ==>
          grants[k].thread in answer' && answer'[grants[k].thread] == Granted(grants[k].events))
    && forall t {:trigger SameAnswer(t, answer, answer')} :: t !in Threads(grants) ==> SameAnswer(t, answer, answer')
  }

  ghost predicate SameAnswer(t: Thread, answer: map<Thread, Answer>, answer': map<Thread, Answer>) {
    (t in answer' <==> t in answer) && (t in answer' && t in answer ==> answer'[t] == answer[t])
  }

  /** Nobody is granted twice, and only who waits. */
  lemma {:induction false} GrantsOnce(events: bv32, q: seq<Thread>, want: map<Thread, bv32>, info: map<Thread, Option>)
    requires NoRepeats(q)
    ensures var g := Deliver(events, q, want, info).grants;
            AllFrom(g, q) && Once(g)
    decreases |q|
  {
    if q != [] {
      hide *;
      var left := LeftBy(events, q[0], want, info);
      var g := Deliver(left, q[1..], want, info).grants;
      HeadOnce(q);
      DeliverFirst(events, q, want, info);
      GrantsOnce(left, q[1..], want, info);
      OnceCons(Grant(q[0], Received(InfoOf(info, q[0]), WantOf(want, q[0]), events)), g, q);
    }
  }

  ghost predicate Once(g: seq<Grant>) {
    forall i, j {:trigger g[i], g[j]} :: 0 <= i < j < |g| ==> g[i].thread != g[j].thread
  }

  ghost predicate AllFrom(g: seq<Grant>, q: seq<Thread>) {
    forall k {:trigger g[k]} :: 0 <= k < |g| ==> g[k].thread in q
  }

  lemma OnceCons(x: Grant, g: seq<Grant>, q: seq<Thread>)
    requires q != [] && x.thread == q[0] && q[0] !in q[1..] && Once(g) && AllFrom(g, q[1..])
    ensures AllFrom(g, q) && AllFrom([x] + g, q) && Once([x] + g)
  {
    assert q[0] in q && forall u :: u in q[1..] ==> u in q;
    var h := [x] + g;
    forall j | 0 < j < |h| ensures h[j] == g[j - 1] && h[j].thread in q[1..] {
    }
  }

  lemma {:induction false} AnsweredAll(answer: map<Thread, Answer>, want: map<Thread, bv32>, grants: seq<Grant>)
    requires Once(grants)
    ensures AllGranted(answer, Answered(answer, grants), grants)
    ensures forall k {:trigger grants[k]} :: 0 <= k < |grants| ==>
              var t := grants[k].thread; t in Recorded(want, grants) && Recorded(want, grants)[t] == grants[k].events
    decreases |grants|
  {
    hide *;
    AnsweredLast(answer, want, grants);
    if grants != [] {
      var n := |grants| - 1;
      var g, rest := grants[n], grants[..n];
      OnceBut(grants);
      AnsweredAll(answer, want, rest);
      AllGrantedMore(answer, Answered(answer, rest), grants);
      forall k {:trigger grants[k]} | 0 <= k < |grants|
        ensures var t := grants[k].thread;
                t in Recorded(want, grants) && Recorded(want, grants)[t] == grants[k].events
      {
        if k < n {
          assert rest[k] == grants[k];
        }
      }
    }
  }

  lemma AnsweredLast(answer: map<Thread, Answer>, want: map<Thread, bv32>, grants: seq<Grant>)
    ensures grants == [] ==> AllGranted(answer, Answered(answer, grants), grants)
    ensures grants != [] ==>
              var g, rest := grants[|grants| - 1], grants[..|grants| - 1];
              && Answered(answer, grants) == Answered(answer, rest)[g.thread := Granted(g.events)]
              && Recorded(want, grants) == Recorded(want, rest)[g.thread := g.events]
  {
  }

  lemma OnceBut(grants: seq<Grant>)
    requires Once(grants) && grants != []
    ensures Once(grants[..|grants| - 1])
    ensures forall k {:trigger grants[k]} :: 0 <= k < |grants| - 1 ==> grants[k].thread != grants[|grants| - 1].thread
  {
  }

  lemma AllGrantedMore(answer: map<Thread, Answer>, a: map<Thread, Answer>, grants: seq<Grant>)
    requires Once(grants) && grants != []
    requires AllGranted(answer, a, grants[..|grants| - 1])
    ensures var g := grants[|grants| - 1]; AllGranted(answer, a[g.thread := Granted(g.events)], grants)
  {
    OnceBut(grants);
    hide Once;
    var g, rest := grants[|grants| - 1], grants[..|grants| - 1];
    var b := a[g.thread := Granted(g.events)];
    forall k {:trigger grants[k]} | 0 <= k < |grants|
      ensures grants[k].thread in b && b[grants[k].thread] == Granted(grants[k].events)
    {
      if k < |rest| {
        assert rest[k] == grants[k];
      }
    }
    forall t | t !in Threads(grants) ensures SameAnswer(t, answer, b) {
      assert g in grants && forall x :: x in rest ==> x in grants;
      assert t !in Threads(rest) && t != g.thread;
      assert SameAnswer(t, answer, a);
    }
  }

  /** After a traversal the answers are right. */
  lemma GrantsAnswered(events: bv32, q: seq<Thread>, want: map<Thread, bv32>, info: map<Thread, Option>,
                       pending: set<Thread>, answer: map<Thread, Answer>, error: map<Thread, int>)
    requires NoRepeats(q) && AnswersOk(pending, answer, want, error)
    requires forall t {:trigger t in pending} :: t in pending ==> t !in q
    requires forall t {:trigger t in q} :: t in q ==> t in error && error[t] == EOK
    ensures var g := Deliver(events, q, want, info).grants;
            && AllGranted(answer, Answered(answer, g), g)
            && AnswersOk(pending + Threads(g), Answered(answer, g), Recorded(want, g), error)
  {
    var g := Deliver(events, q, want, info).grants;
    GrantsOnce(events, q, want, info);
    AnsweredAll(answer, want, g);
    hide Deliver, Answered, Recorded, NoRepeats;
    forall t | t in pending + Threads(g) ensures AnswerOk(t, Answered(answer, g), Recorded(want, g), error) {
      if t in Threads(g) {
        var x :| x in g && x.thread == t;
        var k :| 0 <= k < |g| && g[k] == x;
        assert g[k].thread in q;
      } else {
        RecordedSame(want, g, t);
        assert AnswerOk(t, answer, want, error);
        assert SameAnswer(t, answer, Answered(answer, g));
      }
    }
  }

  lemma {:induction false} RecordedSame(want: map<Thread, bv32>, grants: seq<Grant>, t: Thread)
    requires t !in Threads(grants)
    ensures (t in Recorded(want, grants) <==> t in want) && (t in want ==> Recorded(want, grants)[t] == want[t])
    decreases |grants|
  {
    if grants != [] {
      var g, rest := grants[|grants| - 1], grants[..|grants| - 1];
      assert g in grants && forall x :: x in rest ==> x in grants;
      RecordedSame(want, rest, t);
    }
  }

  /** Whoever is passed over keeps its place. */
  lemma {:induction false} KeptInLine(events: bv32, q: seq<Thread>, want: map<Thread, bv32>, info: map<Thread, Option>,
                                      flag: Flag, tcb: map<Thread, Tcb>, arrival: map<Thread, int>, ticket: int)
    requires InLine(flag, q, tcb, arrival, ticket)
    ensures InLine(flag, Deliver(events, q, want, info).kept, tcb, arrival, ticket)
    ensures forall u {:trigger u in Deliver(events, q, want, info).kept} ::
              u in Deliver(events, q, want, info).kept ==> u in q
    decreases |q|
  {
    hide Satisfied, Received, AndNot32, InLine;
    if q != [] {
      var t, o, rest := q[0], InfoOf(info, q[0]), q[1..];
      LineTail(flag, q, tcb, arrival, ticket);
      if Satisfied(o, WantOf(want, t), events) {
        var got := Received(o, WantOf(want, t), events);
        KeptInLine(if o.clear then AndNot32(events, got) else events, rest, want, info, flag, tcb, arrival, ticket);
      } else {
        KeptInLine(events, rest, want, info, flag, tcb, arrival, ticket);
        LineCons(flag, q, Deliver(events, rest, want, info).kept, tcb, arrival, ticket);
      }
    }
  }

  datatype Outcome = Refused | Got(events: bv32) | TimedOut | Blocked

  class Event {
    const sched: Scheduler
    const flag: Flag                         // RT_IPC_FLAG_FIFO or _PRIO
    var events: bv32                         // event->set
    var waiters: seq<Thread>                 // parent.suspend_thread
    var eventSet: map<Thread, bv32>          // thread->event_set
    var eventInfo: map<Thread, Option>       // thread->event_info
    var error: map<Thread, int>              // thread->error, negated
    ghost var asked: map<Thread, bv32>       // the set each thread last passed to rt_event_recv
    ghost var pending: set<Thread>           // woken inside rt_event_recv, not yet returned
    ghost var answer: map<Thread, Answer>    // how each thread was last taken off the list
    ghost var arrival: map<Thread, int>      // when each thread last started to wait
    ghost var ticket: int

    ghost predicate Kept()
      reads this, sched
    {
      && sched.Valid() && Waiting(sched.State(), waiters) && Awake(sched.State(), pending)
      && Asked(waiters, eventSet, eventInfo, asked, error)
      && PendingOk(waiters, pending, eventSet, eventInfo, asked, error)
    }

    /** In every reachable state no waiter's condition holds. */
    ghost predicate Core()
      reads this, sched
    {
      Kept() && NobodyStranded(waiters, eventSet, eventInfo, events)
    }

    /** The list is in the order of the flag, and whoever has been taken off it will be told why. */
    ghost predicate Order()
      reads this`waiters, this`pending, this`eventSet, this`error, this`answer, this`arrival, this`ticket, sched
    {
      InLine(flag, waiters, sched.tcb, arrival, ticket) && AnswersOk(pending, answer, eventSet, error)
    }

    ghost predicate Valid()
      reads this, sched
    {
      Core() && Order()
    }

    lemma ValidFacts()
      requires Valid()
      ensures Core() && InLine(flag, waiters, sched.tcb, arrival, ticket) && AnswersOk(pending, answer, eventSet, error)
      ensures NoRepeats(waiters) && forall t {:trigger t in pending} :: t in pending ==> t !in waiters
      ensures forall t {:trigger t in waiters} :: t in waiters ==> t in sched.tcb && t in error && error[t] == EOK
    {
      hide InLine, Satisfied, NoRepeats;
    }

    lemma Names()
      ensures View() == Round(events, waiters, eventSet, pending, sched.State())
      ensures sched.State() == Sys(sched.queues, sched.tcb, sched.current)
    {
    }

    /** Note what has happened to those who waited, and who has come. */
    ghost method Note(answer': map<Thread, Answer>, arrival': map<Thread, int>, ticket': int)
      requires Core() && InLine(flag, waiters, sched.tcb, arrival', ticket')
      requires AnswersOk(pending, answer', eventSet, error)
      modifies this`answer, this`arrival, this`ticket
      ensures Valid() && answer == answer' && arrival == arrival' && ticket == ticket'
    {
      hide InLine, AnswersOk, NobodyStranded, Asked, PendingOk, Waiting, Awake, BitsOk, SysOk;
      answer, arrival, ticket := answer', arrival', ticket';
    }

    ghost predicate Active()
      reads this`pending, sched
    {
      sched.current in sched.tcb && sched.tcb[sched.current].stat == Running && sched.current !in pending
    }

    /** rt_event_init. */
    constructor (sched: Scheduler, flag: Flag)
      requires sched.Valid()
      ensures Valid() && this.sched == sched && this.flag == flag && events == 0 && waiters == [] && pending == {}
    {
      this.sched, this.flag := sched, flag;
      events, waiters, eventSet, eventInfo, error := 0, [], map[], map[], map[];
      asked, pending := map[], {};
      answer, arrival, ticket := map[], map[], 0;
    }

    method SendAll(events: bv32) returns (ok: bool, needSchedule: bool)
      requires Core()
      modifies this`events, this`waiters, this`eventSet, this`pending, sched`queues, sched`readyGroup, sched`readyTable,
               sched`tcb
      ensures Core() && ok == (events != 0)
      ensures !ok ==> this.events == old(this.events) && waiters == old(waiters) && eventSet == old(eventSet)
                      && pending == old(pending) && !needSchedule
                      && sched.State() == old(sched.State())
      ensures ok ==> var d := Deliver(Or32(old(this.events), events), old(waiters), old(eventSet), eventInfo);
                     needSchedule == (d.grants != []) && Delivered(old(View()), View(), d)
    {
      if events == 0 {
        return false, false;
      }
      ghost var q0, want0, sent := waiters, eventSet, Or32(this.events, events);
      this.events := Or32(this.events, events);
      needSchedule := Traverse();
      StrandsNobody(sent, q0, want0, eventInfo);
      StrandedFrame(waiters, want0, eventSet, eventInfo, this.events, Deliver(sent, q0, want0, eventInfo).grants);
      ok := true;
    }

    /** rt_event_send up to its rt_schedule; false for -RT_ERROR. */
    method Send(events: bv32) returns (ok: bool, needSchedule: bool)
      requires Valid()
      modifies this`events, this`waiters, this`eventSet, this`pending, this`answer, this`arrival,
               this`ticket, sched`queues, sched`readyGroup, sched`readyTable, sched`tcb
      ensures Valid() && ok == (events != 0)
      ensures !ok ==> this.events == old(this.events) && waiters == old(waiters) && eventSet == old(eventSet)
                      && pending == old(pending) && !needSchedule
                      && sched.State() == old(sched.State())
      ensures ok ==> var d := Deliver(Or32(old(this.events), events), old(waiters), old(eventSet), eventInfo);
                     needSchedule == (d.grants != []) && Delivered(old(View()), View(), d)
      ensures AllGranted(old(answer), answer,
                         if ok then Deliver(Or32(old(this.events), events), old(waiters), old(eventSet),
                                            eventInfo).grants
                         else [])
      ensures arrival == old(arrival) && ticket == old(ticket)
    {
      hide *;
      ghost var q, w, p, s, n := waiters, eventSet, pending, sched.State(), Or32(this.events, events);
      ValidFacts();
      Names();
      ok, needSchedule := SendAll(events);
      Names();
      if ok {
        ghost var d := Deliver(n, q, w, eventInfo);
        SendOrder(n, q, w, eventInfo, p, answer, error, s, flag, arrival, ticket);
        DeliveredParts(Round(old(this.events), q, w, p, s), View(), d);
        Note(Answered(answer, d.grants), arrival, ticket);
      } else {
        GrantedNone(answer);
        Note(answer, arrival, ticket);
      }
    }

    ghost function View(): Round
      reads this`events, this`waiters, this`eventSet, this`pending, sched`queues, sched`tcb, sched`current
    {
      Round(events, waiters, eventSet, pending, sched.State())
    }

    /** The loop of rt_event_send. */
    method Traverse() returns (needSchedule: bool)
      requires Kept()
      modifies this`events, this`waiters, this`eventSet, this`pending, sched`queues, sched`readyGroup, sched`readyTable,
               sched`tcb
      ensures Kept()
      ensures var d := Deliver(old(events), old(waiters), old(eventSet), eventInfo);
              needSchedule == (d.grants != []) && Delivered(old(View()), View(), d)
    {
      hide Satisfied, Received, Recorded, Deliver, NoRepeats, Inserted, Asked, PendingOk, Waiting, Minus, Awake, Passed,
           Delivered;
      needSchedule := false;
      var i := 0;
      ghost var grants: seq<Grant> := [];
      PassedStart(View(), eventInfo);
      while i < |waiters|
        invariant 0 <= i <= |waiters| && Kept() && Passed(old(View()), View(), eventInfo, i, grants)
        invariant needSchedule == (grants != [])
        decreases |waiters| - i
      {
        ghost var r := View();
        var t := waiters[i];
        assert t in waiters;
        AskedAt(waiters, eventSet, eventInfo, asked, error, t);
        var o, want := eventInfo[t], eventSet[t];
        if Satisfied(o, want, events) {
          ghost var got := Received(o, want, events);
          WaitingRepeats(sched.State(), waiters);
          Wake(i, got);
          PassedGrant(old(View()), r, View(), eventInfo, i, grants, got);
          grants := grants + [Grant(t, got)];
          needSchedule := true;
        } else {
          PassedKeep(old(View()), r, eventInfo, i, grants);
          i := i + 1;
        }
      }
      PassedEnd(old(View()), View(), eventInfo, i, grants);
    }

    /** One satisfied waiter: its events recorded and perhaps cleared, itself resumed and off the list. */
    method Wake(i: nat, ghost got: bv32)
      requires Kept() && i < |waiters| && waiters[i] in eventSet && waiters[i] in eventInfo
      requires Satisfied(eventInfo[waiters[i]], eventSet[waiters[i]], events)
      requires got == Received(eventInfo[waiters[i]], eventSet[waiters[i]], events)
      modifies this`events, this`waiters, this`eventSet, this`pending, sched`queues, sched`readyGroup, sched`readyTable,
               sched`tcb
      ensures Kept() && waiters == Minus(old(waiters), old(waiters[i])) && |waiters| == |old(waiters)| - 1
      ensures forall u {:trigger u in waiters} :: u in waiters ==> u in old(waiters) && u != old(waiters[i])
      ensures eventSet == old(eventSet)[old(waiters[i]) := got] && pending == old(pending) + {old(waiters[i])}
      ensures events == if eventInfo[old(waiters[i])].clear then AndNot32(old(events), got) else old(events)
      ensures old(waiters[i] in sched.tcb) && sched.State() == Inserted(old(sched.State()), old(waiters[i]))
    {
      hide Satisfied, Received, NoRepeats, Inserted, Minus, Asked, PendingOk, SysOk, BitsOk, Waiting, Awake;
      var t := waiters[i];
      WaitingRepeats(sched.State(), waiters);
      MinusAt(waiters, i);
      GrantKeeps(waiters, i, eventSet, eventInfo, asked, error, pending, got, events);
      WaitingWake(sched.top, sched.State(), waiters, t);
      WaitingAt(sched.State(), waiters, t);
      AwakeWake(sched.State(), pending, t);
      Take(t, got);
      var ok := sched.Resume(t);
      waiters := Minus(waiters, t);
      pending := pending + {t};
    }

    /** The events of a satisfied waiter. */
    method Take(t: Thread, ghost got: bv32)
      requires t in eventSet && t in eventInfo && Satisfied(eventInfo[t], eventSet[t], events)
      requires got == Received(eventInfo[t], eventSet[t], events)
      modifies this`events, this`eventSet
      ensures eventSet == old(eventSet)[t := got]
      ensures events == if eventInfo[t].clear then AndNot32(old(events), got) else old(events)
    {
      var o := eventInfo[t];
      SameMap(eventSet, t, got);
      if !o.and {
        eventSet := eventSet[t := And32(eventSet[t], events)];
      }
      if o.clear {
        events := AndNot32(events, eventSet[t]);
      }
    }

    method Receive(events: bv32, option: Option, timeout: int) returns (r: Outcome)
      requires Core() && Active() && (option.and || option.or)
      modifies this`events, this`waiters, this`eventSet, this`eventInfo, this`error, this`asked, sched`queues,
               sched`readyGroup, sched`readyTable, sched`tcb
      ensures Core() && sched.current == old(sched.current)
      ensures var hit := Satisfied(option, events, old(this.events));
              r == if events == 0 then Refused else if hit then Got(And32(old(this.events), events))
                else if timeout == 0 then TimedOut else Blocked
      ensures this.events == if r.Got? && option.clear then AndNot32(old(this.events), events) else old(this.events)
      ensures waiters == if r.Blocked? then Enqueued(old(waiters), old(sched.tcb), flag, sched.current)
              else old(waiters)
      ensures r.Blocked? ==> sched.State() == Retired(old(sched.State()), sched.current, Suspended)
                             && asked == old(asked)[sched.current := events]
      ensures !r.Blocked? ==> sched.State() == old(sched.State())
      ensures eventSet == if r.Blocked? then old(eventSet)[sched.current := events] else old(eventSet)
      ensures error == match r case Refused => old(error)
                               case TimedOut => old(error)[sched.current := ETIMEOUT]
                               case _ => old(error)[sched.current := EOK]
      ensures eventInfo == if r.Blocked? then old(eventInfo)[sched.current := option] else old(eventInfo)
    {
      hide Satisfied, Asked, PendingOk, NobodyStranded, Waiting, SysOk, BitsOk, Enqueued, Retired, Awake;
      if events == 0 {
        return Refused;
      }
      var thread := sched.current;
      WaitingBlock(sched.top, sched.State(), waiters, flag);
      AwakeBlock(sched.State(), pending, thread);
      ErrorFrame(waiters, pending, eventSet, eventInfo, asked, error, thread, EOK);
      error := error[thread := EOK];
      if Satisfied(option, events, this.events) {
        r := Got(And32(this.events, events));
        if option.clear {
          AndNotWithin(this.events, events);
          FewerStrandNobody(waiters, eventSet, eventInfo, this.events, AndNot32(this.events, events));
          this.events := AndNot32(this.events, events);
        }
      } else if timeout == 0 {
        ErrorFrame(waiters, pending, eventSet, eventInfo, asked, error, thread, ETIMEOUT);
        error := error[thread := ETIMEOUT];
        r := TimedOut;
      } else {
        BlockKeeps(waiters, Enqueued(waiters, sched.tcb, flag, thread), pending, eventSet, eventInfo, asked, error,
                   thread, events, option, this.events);
        eventSet := eventSet[thread := events];
        eventInfo := eventInfo[thread := option];
        asked := asked[thread := events];
        Suspend(thread);
        r := Blocked;
      }
    }

    /** rt_event_recv up to its rt_schedule; one of AND and OR is given. */
    method Recv(events: bv32, option: Option, timeout: int) returns (r: Outcome)
      requires Valid() && Active() && (option.and || option.or)
      modifies this`events, this`waiters, this`eventSet, this`eventInfo, this`error, this`asked, this`answer,
               this`arrival, this`ticket, sched`queues, sched`readyGroup, sched`readyTable, sched`tcb
      ensures Valid() && sched.current == old(sched.current)
      ensures var hit := Satisfied(option, events, old(this.events));
              r == if events == 0 then Refused else if hit then Got(And32(old(this.events), events))
                else if timeout == 0 then TimedOut else Blocked
      ensures this.events == if r.Got? && option.clear then AndNot32(old(this.events), events) else old(this.events)
      ensures waiters == if r.Blocked? then Enqueued(old(waiters), old(sched.tcb), flag, sched.current)
              else old(waiters)
      ensures r.Blocked? ==> sched.State() == Retired(old(sched.State()), sched.current, Suspended)
                             && asked == old(asked)[sched.current := events]
      ensures !r.Blocked? ==> sched.State() == old(sched.State())
      ensures eventSet == if r.Blocked? then old(eventSet)[sched.current := events] else old(eventSet)
      ensures eventInfo == if r.Blocked? then old(eventInfo)[sched.current := option] else old(eventInfo)
      ensures error == match r case Refused => old(error)
                               case TimedOut => old(error)[sched.current := ETIMEOUT]
                               case _ => old(error)[sched.current := EOK]
      ensures arrival == if r.Blocked? then old(arrival)[sched.current := old(ticket)] else old(arrival)
      ensures ticket == if r.Blocked? then old(ticket) + 1 else old(ticket)
      ensures answer == old(answer)
    {
      hide *;
      ghost var q, w, e, s := waiters, eventSet, error, sched.State();
      ValidFacts();
      Names();
      NotWaiting();
      r := Receive(events, option, timeout);
      Names();
      AnswersFrame(pending, answer, w, e, s.current, events, EOK);
      AnswersFrame(pending, answer, w, e, s.current, events, ETIMEOUT);
      if r.Blocked? {
        LineBlock(s, flag, q, q, arrival, ticket);
        Note(answer, arrival[s.current := ticket], ticket + 1);
      } else {
        Note(answer, arrival, ticket);
      }
    }

    lemma NotWaiting()
      requires Core() && Active()
      ensures sched.current in sched.tcb && sched.current !in waiters && sched.current !in pending
    {
    }

    /** rt_ipc_list_suspend. */
    method Suspend(thread: Thread)
      requires sched.Valid() && thread in sched.tcb && sched.tcb[thread].stat == Running
      modifies this`waiters, sched`queues, sched`readyGroup, sched`readyTable, sched`tcb
      ensures sched.Valid() && waiters == Enqueued(old(waiters), old(sched.tcb), flag, thread)
      ensures sched.State() == Retired(old(sched.State()), thread, Suspended)
    {
      hide SysOk, BitsOk, Retired, PrioPosition;
      var i := |waiters|;
      if flag == Prio {
        i := FindPosition(waiters, sched.tcb, sched.tcb[thread].priority);
      }
      assert waiters[..|waiters|] == waiters && waiters[|waiters|..] == [];
      assert waiters + [thread] == waiters + [thread] + [];
      waiters := Insert(waiters, i, thread);
      var ok := sched.Suspend(thread);
    }

    /** rt_thread_timeout for a waiter, up to its rt_schedule. */
    method Timeout(w: Thread)
      requires Valid() && w in waiters
      modifies this`waiters, this`error, this`pending, this`answer, this`arrival, this`ticket, sched`queues,
               sched`readyGroup, sched`readyTable, sched`tcb
      ensures Valid() && waiters == Minus(old(waiters), w) && error == old(error)[w := ETIMEOUT]
              && pending == old(pending) + {w} && answer == old(answer)[w := WaitedOut]
      ensures arrival == old(arrival) && ticket == old(ticket)
      ensures old(w in sched.tcb) && sched.State() == Inserted(old(sched.State()), w)
    {
      hide *;
      ghost var q, p, e, s := waiters, pending, error, sched.State();
      ValidFacts();
      Names();
      Expel(w, ETIMEOUT);
      Names();
      LineWake(s, flag, q, arrival, ticket, w);
      AnswersMore(p, answer, eventSet, e, w);
      Note(answer[w := WaitedOut], arrival, ticket);
    }

    /** A waiter leaves with an error. */
    method Expel(w: Thread, code: int)
      requires Core() && w in waiters && (code == ETIMEOUT || code == ERROR)
      modifies this`waiters, this`error, this`pending, sched`queues, sched`readyGroup, sched`readyTable, sched`tcb
      ensures Core() && waiters == Minus(old(waiters), w) && error == old(error)[w := code]
              && pending == old(pending) + {w}
      ensures old(w in sched.tcb) && sched.State() == Inserted(old(sched.State()), w)
      ensures |waiters| < |old(waiters)|
    {
      hide Asked, PendingOk, NobodyStranded, Waiting, SysOk, BitsOk, Inserted, Minus, Awake;
      WaitingAt(sched.State(), waiters, w);
      AwakeWake(sched.State(), pending, w);
      WaitingWake(sched.top, sched.State(), waiters, w);
      ExpelKeeps(waiters, eventSet, eventInfo, asked, error, pending, events, w, code);
      MinusShorter(waiters, w);
      error := error[w := code];
      waiters := Minus(waiters, w);
      sched.InsertThread(w);
      pending := pending + {w};
    }

    method ExpelAll()
      requires Core()
      modifies this`events, this`waiters, this`error, this`pending, sched`queues, sched`readyGroup, sched`readyTable,
               sched`tcb
      ensures Core() && events == 0 && waiters == []
      ensures forall t {:trigger t in pending} :: t in pending <==> t in old(pending) || t in old(waiters)
      ensures forall w {:trigger w in old(waiters)} :: w in old(waiters) ==> w in error && error[w] == ERROR
      ensures ErrorsElsewhere(old(waiters), old(error), error)
      ensures sched.State() == Resumed(old(sched.State()), old(waiters))
    {
      hide Asked, PendingOk, NobodyStranded, Waiting, SysOk, BitsOk, Minus, Awake, Resumed, Inserted, NoRepeats;
      ghost var done: seq<Thread> := [];
      NobodyResumed(sched.State());
      while waiters != []
        invariant Core() && events == old(events)
        invariant forall t {:trigger t in pending} {:trigger t in waiters} :: t in pending || t in waiters <==>
                    t in old(pending) || t in old(waiters)
        invariant forall w {:trigger w in old(waiters)} :: w in old(waiters) && w !in waiters ==>
                    w in error && error[w] == ERROR
        invariant ErrorsElsewhere(old(waiters), old(error), error)
        invariant old(waiters) == done + waiters && sched.State() == Resumed(old(sched.State()), done)
        decreases |waiters|
      {
        var w := waiters[0];
        assert w in waiters;
        MinusMembers(waiters, w);
        WaitingRepeats(sched.State(), waiters);
        MinusHead(waiters);
        OneMore(done, waiters, w);
        Expel(w, ERROR);
        ResumedNext(old(sched.State()), done, w);
        done := done + [w];
      }
      assert done + [] == done;
      Cleared();
      events := 0;
    }

    /** rt_event_control with RT_IPC_CMD_RESET, up to its rt_schedule. */
    method Reset()
      requires Valid()
      modifies this`events, this`waiters, this`error, this`pending, this`answer, this`arrival, this`ticket,
               sched`queues, sched`readyGroup, sched`readyTable, sched`tcb
      ensures Valid() && events == 0 && waiters == []
      ensures forall t {:trigger t in pending} :: t in pending <==> t in old(pending) || t in old(waiters)
      ensures forall w {:trigger w in old(waiters)} :: w in old(waiters) ==> w in error && error[w] == ERROR
      ensures sched.State() == Resumed(old(sched.State()), old(waiters))
      ensures forall w {:trigger w in old(waiters)} :: w in old(waiters) ==> w in answer && answer[w] == WasReset
      ensures forall t {:trigger SameAnswer(t, old(answer), answer)} ::
                t !in old(waiters) ==> SameAnswer(t, old(answer), answer)
      ensures arrival == old(arrival) && ticket == old(ticket)
    {
      hide *;
      ghost var q, p, e := waiters, pending, error;
      ValidFacts();
      ExpelAll();
      ResetAnswers(q, p, answer, eventSet, e, pending, error);
      NobodyInLine(flag, sched.tcb, arrival, ticket);
      Note(AllReset(answer, q), arrival, ticket);
    }

    lemma Cleared()
      requires Core() && waiters == []
      ensures Kept() && NobodyStranded([], eventSet, eventInfo, 0)
    {
    }

    /** The end of rt_event_recv for a thread that had to wait: it succeeds exactly if it was granted, and is told the
        events of the grant, which are a part of what it asked for and enough. */
    method RecvReturn() returns (code: int, recved: bv32)
      requires Valid() && sched.current in pending
      modifies this`pending
      ensures Valid() && pending == old(pending) - {sched.current}
      ensures sched.current in answer
              && match answer[sched.current]
                 case Granted(e) => code == EOK && recved == e
                 case WaitedOut => code == ETIMEOUT && recved == 0
                 case WasReset => code == ERROR && recved == 0
      ensures code == EOK ==> sched.current in asked && sched.current in eventInfo
                              && Satisfied(eventInfo[sched.current], asked[sched.current], recved)
                              && Within(recved, asked[sched.current])
    {
      hide InLine, Satisfied, Within, SysOk, BitsOk;
      var thread := sched.current;
      assert PendingAt(thread, eventSet, eventInfo, asked, error) && AnswerOk(thread, answer, eventSet, error);
      code := error[thread];
      recved := if code == EOK then eventSet[thread] else 0;
      pending := pending - {thread};
    }

    /** Between two steps, a thread that is in no call on this event is created, started, resumed, suspended, given
        another priority, or exits. */
    method Otherwise(m: Others.Move)
      requires Valid() && Others.Allowed(sched.top, sched.State(), m) && m.thread !in waiters && m.thread !in pending
      modifies sched`queues, sched`readyGroup, sched`readyTable, sched`tcb, sched`current
      ensures Valid()
      ensures old(sched.Valid() && Others.Allowed(sched.top, sched.State(), m))
              && Others.Moved(sched.top, sched.lockNest, old(sched.State()), m, sched.State())
    {
      hide SysOk, BitsOk, Waiting, Awake, Asked, PendingOk, NobodyStranded, InLine, AnswersOk, Others.Moved,
           Others.Allowed, Others.Undisturbed;
      ghost var s := sched.State();
      Others.Perform(sched, m);
      Others.WaitingStill(s, sched.State(), m.thread, waiters);
      Others.AwakeStill(s, sched.State(), m.thread, pending);
      Others.LineStill(s, sched.State(), m.thread, flag, waiters, arrival, ticket);
    }

    /** rt_schedule. */
    method Reschedule()
      requires Valid() && sched.current != 0
      modifies sched`queues, sched`readyGroup, sched`readyTable, sched`tcb, sched`current
      ensures Valid() && (sched.lockNest == 0 && !Idle(old(sched.queues)) ==> TopRuns(sched.State()))
      ensures if sched.lockNest == 0 then Chosen(old(sched.State()), sched.State())
              else sched.State() == old(sched.State())
    {
      hide SysOk, BitsOk, Waiting, Awake, TopRuns, Scheduled, Chosen, IsFirst, Idle, Asked, PendingOk, NobodyStranded,
           InLine, AnswersOk;
      ghost var s := sched.State();
      var h := sched.Schedule();
      if sched.lockNest == 0 && !Idle(s.queues) {
        FirstSome(s.queues, h);
        ChosenBy(s, sched.State(), h);
        WaitingSchedule(sched.top, s, h, waiters);
        AwakeSchedule(sched.top, s, h, pending);
        LineSchedule(sched.top, s, h, flag, waiters, arrival, ticket);
      } else if sched.lockNest == 0 {
        IdleChosen(s);
      }
    }
  }

  /** A reset answers all who wait. */
  function AllReset(answer: map<Thread, Answer>, q: seq<Thread>): map<Thread, Answer> {
    map t | t in answer.Keys + (set u | u in q) :: if t in q then WasReset else answer[t]
  }

  ghost predicate ErrorsElsewhere(q: seq<Thread>, error: map<Thread, int>, error': map<Thread, int>) {
    forall t {:trigger t in error'} {:trigger t in error} :: t !in q ==>
      (t in error' <==> t in error) && (t in error' && t in error ==> error'[t] == error[t])
  }

  lemma ResetAnswers(q: seq<Thread>, pending: set<Thread>, answer: map<Thread, Answer>, want: map<Thread, bv32>,
                     error: map<Thread, int>, pending': set<Thread>, error': map<Thread, int>)
    requires AnswersOk(pending, answer, want, error) && ErrorsElsewhere(q, error, error')
    requires forall w {:trigger w in q} :: w in q ==> w in error' && error'[w] == ERROR
    requires forall t {:trigger t in pending'} :: t in pending' <==> t in pending || t in q
    ensures var answer' := AllReset(answer, q);
            && AnswersOk(pending', answer', want, error')
            && (forall w {:trigger w in q} :: w in q ==> w in answer' && answer'[w] == WasReset)
            && forall t {:trigger SameAnswer(t, answer, answer')} :: t !in q ==> SameAnswer(t, answer, answer')
  {
    var answer' := AllReset(answer, q);
    forall t | t in pending' ensures AnswerOk(t, answer', want, error') {
      if t !in q {
        assert AnswerOk(t, answer, want, error);
      }
    }
  }

  lemma NobodyInLine(flag: Flag, tcb: map<Thread, Tcb>, arrival: map<Thread, int>, ticket: int)
    ensures InLine(flag, [], tcb, arrival, ticket)
  {
  }

  lemma AnswersFrame(pending: set<Thread>, answer: map<Thread, Answer>, want: map<Thread, bv32>,
                     error: map<Thread, int>, t: Thread, v: bv32, code: int)
    requires AnswersOk(pending, answer, want, error) && t !in pending
    ensures AnswersOk(pending, answer, want, error[t := code])
            && AnswersOk(pending, answer, want[t := v], error[t := code])
  {
    forall u | u in pending ensures AnswerOk(u, answer, want, error[t := code])
      && AnswerOk(u, answer, want[t := v], error[t := code]) {
      assert AnswerOk(u, answer, want, error);
    }
  }

  lemma AnswersMore(pending: set<Thread>, answer: map<Thread, Answer>, want: map<Thread, bv32>, error: map<Thread, int>,
                    w: Thread)
    requires AnswersOk(pending, answer, want, error)
    ensures AnswersOk(pending + {w}, answer[w := WaitedOut], want, error[w := ETIMEOUT])
  {
    forall u | u in pending + {w} ensures AnswerOk(u, answer[w := WaitedOut], want, error[w := ETIMEOUT]) {
      if u != w {
        assert AnswerOk(u, answer, want, error);
      }
    }
  }

  lemma GrantedNone(answer: map<Thread, Answer>)
    ensures AllGranted(answer, answer, [])
  {
  }

  lemma DeliveredParts(r: Round, r': Round, d: Delivery)
    requires Delivered(r, r', d)
    ensures r'.waiters == d.kept && r'.want == Recorded(r.want, d.grants) && r'.pending == r.pending + Threads(d.grants)
            && r'.sys == Resumed(r.sys, Order(d.grants))
  {
  }

  lemma SendOrder(events: bv32, q: seq<Thread>, want: map<Thread, bv32>, info: map<Thread, Option>,
                  pending: set<Thread>, answer: map<Thread, Answer>, error: map<Thread, int>, s: Sys, flag: Flag,
                  arrival: map<Thread, int>, ticket: int)
    requires NoRepeats(q) && AnswersOk(pending, answer, want, error) && InLine(flag, q, s.tcb, arrival, ticket)
    requires forall t {:trigger t in pending} :: t in pending ==> t !in q
    requires forall t {:trigger t in q} :: t in q ==> t in error && error[t] == EOK
    ensures var d := Deliver(events, q, want, info);
            && AllGranted(answer, Answered(answer, d.grants), d.grants)
            && AnswersOk(pending + Threads(d.grants), Answered(answer, d.grants), Recorded(want, d.grants), error)
            && InLine(flag, d.kept, Resumed(s, Order(d.grants)).tcb, arrival, ticket)
  {
    hide NoRepeats, AnswersOk, InLine, Deliver, Answered, Recorded, AllGranted, Resumed;
    var d := Deliver(events, q, want, info);
    GrantsAnswered(events, q, want, info, pending, answer, error);
    KeptInLine(events, q, want, info, flag, s.tcb, arrival, ticket);
    LineResumed(s, Order(d.grants), flag, d.kept, arrival, ticket);
  }

  lemma StartsEmpty(events: bv32, q: seq<Thread>, want: map<Thread, bv32>, info: map<Thread, Option>)
    ensures Progress(events, q, want, info, events, q, 0, []) && Recorded(want, []) == want && Threads([]) == {}
  {
    assert q[0..] == q;
  }

  lemma EndsEmpty(events: bv32, q: seq<Thread>, want: map<Thread, bv32>, info: map<Thread, Option>)
    ensures q[|q|..] == [] && q[..|q|] == q && Deliver(events, [], want, info) == Delivery(events, [], [])
  {
  }

  lemma AskedAt(waiters: seq<Thread>, want: map<Thread, bv32>, info: map<Thread, Option>, asked: map<Thread, bv32>,
                error: map<Thread, int>, t: Thread)
    requires Asked(waiters, want, info, asked, error) && t in waiters
    ensures t in want && t in info && (info[t].and || info[t].or)
  {
  }

  lemma WaitingRepeats(s: Sys, q: seq<Thread>)
    requires Waiting(s, q)
    ensures NoRepeats(q)
  {
  }

  lemma WaitingAt(s: Sys, q: seq<Thread>, t: Thread)
    requires Waiting(s, q) && t in q
    ensures t in s.tcb && s.tcb[t].stat == Suspended
  {
  }

  lemma SameMap(m: map<Thread, bv32>, t: Thread, v: bv32)
    ensures t in m && m[t] == v ==> m[t := v] == m
  {
  }

  /** Only granted threads' event sets have changed. */
  lemma StrandedFrame(q: seq<Thread>, want: map<Thread, bv32>, want': map<Thread, bv32>, info: map<Thread, Option>,
                      events: bv32, grants: seq<Grant>)
    requires NobodyStranded(q, want, info, events) && want' == Recorded(want, grants)
    requires forall u {:trigger u in q} :: u in q ==> u !in Threads(grants)
    ensures NobodyStranded(q, want', info, events)
  {
    hide Satisfied, Recorded, WantOf;
    forall w | w in q ensures !Satisfied(InfoOf(info, w), WantOf(want', w), events) {
      RecordedElsewhere(want, grants, w);
    }
  }

  lemma ErrorFrame(waiters: seq<Thread>, pending: set<Thread>, want: map<Thread, bv32>, info: map<Thread, Option>,
                   asked: map<Thread, bv32>, error: map<Thread, int>, t: Thread, code: int)
    requires Asked(waiters, want, info, asked, error) && PendingOk(waiters, pending, want, info, asked, error)
             && t !in pending && t !in waiters
    ensures Asked(waiters, want, info, asked, error[t := code])
            && PendingOk(waiters, pending, want, info, asked, error[t := code])
  {
    hide Satisfied, Within;
  }

  /** A thread joins the waiters. */
  lemma BlockKeeps(waiters: seq<Thread>, waiters': seq<Thread>, pending: set<Thread>, want: map<Thread, bv32>,
                   info: map<Thread, Option>,
                   asked: map<Thread, bv32>, error: map<Thread, int>, t: Thread, set0: bv32, option: Option,
                     events: bv32)
    requires Asked(waiters, want, info, asked, error) && PendingOk(waiters, pending, want, info, asked, error)
             && t !in pending && t !in waiters
    requires NobodyStranded(waiters, want, info, events) && !Satisfied(option, set0, events)
             && (option.and || option.or)
    requires t in error && error[t] == EOK && forall u {:trigger u in waiters'} :: u in waiters' <==>
               u in waiters || u == t
    ensures var want', info', asked' := want[t := set0], info[t := option], asked[t := set0];
            && Asked(waiters', want', info', asked', error) && PendingOk(waiters', pending, want', info', asked', error)
            && NobodyStranded(waiters', want', info', events)
  {
    hide Satisfied, Within;
    forall u | u in pending ensures PendingAt(u, want[t := set0], info[t := option], asked[t := set0], error) {
      assert PendingAt(u, want, info, asked, error);
    }
  }

  lemma ExpelKeeps(waiters: seq<Thread>, want: map<Thread, bv32>, info: map<Thread, Option>, asked: map<Thread, bv32>,
                   error: map<Thread, int>,
                   pending: set<Thread>, events: bv32, w: Thread, code: int)
    requires Asked(waiters, want, info, asked, error) && PendingOk(waiters, pending, want, info, asked, error)
             && NobodyStranded(waiters, want, info, events)
    requires w in waiters && (code == ETIMEOUT || code == ERROR)
    ensures var error' := error[w := code];
            && Asked(Minus(waiters, w), want, info, asked, error')
            && NobodyStranded(Minus(waiters, w), want, info, events)
            && PendingOk(Minus(waiters, w), pending + {w}, want, info, asked, error')
  {
    hide Satisfied, Within, Minus;
    MinusMembers(waiters, w);
    forall u | u in pending + {w} ensures u !in Minus(waiters, w) && PendingAt(u, want, info, asked, error[w := code]) {
      if u != w {
        assert PendingAt(u, want, info, asked, error);
      }
    }
  }
}
