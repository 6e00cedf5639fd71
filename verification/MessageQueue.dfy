/** Message queues (ipc.c): fixed-size slots that move between a free list, the queue, and threads that copy data in and
    out with interrupts enabled.

    Every region with interrupts disabled, and every single byte copied with interrupts enabled, is one method, so any
    interleaving of senders, urgent senders, receivers, timeouts and resets is a sequence of calls.  Receivers wait as
    at a mailbox; senders never wait. */
module MessageQueue {
  import opened Scheduler
  import opened IpcList
  import opened Seqs
  import opened Word
  import Mailbox
  import Others

  const NULL: int := -1

  /** Link word of each slot; slots are numbered 0, 1, ... in address order. */
  type Links = map<int, int>

  /** Following the links from head visits exactly q and ends in NULL. */
  ghost predicate Chain(next: Links, head: int, q: seq<int>) {
    && NoRepeats(q)
    && head == (if q == [] then NULL else q[0])
    && forall i {:trigger next[q[i]]} {:trigger q[i] in next} :: 0 <= i < |q| ==>
         q[i] in next && next[q[i]] == if i + 1 < |q| then q[i + 1] else NULL
  }

  function Last(q: seq<int>): int { if q == [] then NULL else q[|q| - 1] }

  lemma PopChain(next: Links, head: int, q: seq<int>)
    requires Chain(next, head, q) && q != []
    ensures head == q[0] && head in next && Chain(next, next[head], q[1..]) && head !in q[1..]
            && Last(q) == (if q[1..] == [] then head else Last(q[1..]))
  {
    var r := q[1..];
    forall i {:trigger next[r[i]]} | 0 <= i < |r|
      ensures r[i] in next && next[r[i]] == if i + 1 < |r| then r[i + 1] else NULL
    {
      assert next[q[i + 1]] == if i + 2 < |q| then q[i + 2] else NULL;
    }
  }

  lemma PushChain(next: Links, head: int, q: seq<int>, k: int)
    requires Chain(next, head, q) && k !in q
    ensures Chain(next[k := head], k, [k] + q)
    ensures Last([k] + q) == if q == [] then k else Last(q)
  {
    var r, next' := [k] + q, next[k := head];
    forall i {:trigger next'[r[i]]} | 0 <= i < |r|
      ensures r[i] in next' && next'[r[i]] == if i + 1 < |r| then r[i + 1] else NULL
    {
      if i > 0 {
        assert next[q[i - 1]] == if i < |q| then q[i] else NULL;
      }
    }
  }

  lemma AppendChain(next: Links, head: int, q: seq<int>, k: int)
    requires Chain(next, head, q) && k !in q && k in next && next[k] == NULL
    ensures q != [] ==> Last(q) in q
    ensures Chain(if q == [] then next else next[Last(q) := k], if q == [] then k else head, q + [k])
  {
    var r, next' := q + [k], if q == [] then next else next[Last(q) := k];
    forall i {:trigger next'[r[i]]} | 0 <= i < |r|
      ensures r[i] in next' && next'[r[i]] == if i + 1 < |r| then r[i + 1] else NULL
    {
      if i < |q| {
        assert next[q[i]] == if i + 1 < |q| then q[i + 1] else NULL;
      }
    }
  }

  /** Writing the link of a slot outside a chain does not touch it. */
  lemma ChainWrite(next: Links, head: int, q: seq<int>, k: int, v: int)
    requires Chain(next, head, q) && k !in q
    ensures Chain(next[k := v], head, q)
  {
    var next' := next[k := v];
    forall i {:trigger next'[q[i]]} | 0 <= i < |q|
      ensures q[i] in next' && next'[q[i]] == if i + 1 < |q| then q[i + 1] else NULL
    {
      assert q[i] in q && next[q[i]] == if i + 1 < |q| then q[i + 1] else NULL;
    }
  }

  // Who has which slot.

  /** What a thread is doing between two of its regions. */
  datatype Phase =
    | Filling(slot: int, buffer: seq<byte>, copied: nat, urgent: bool, terminated: bool)
    | Draining(slot: int, want: nat, got: seq<byte>)

  type Phases = map<int, Phase>

  /** Slots free, queued and held by a thread. */
  datatype Places = Places(free: seq<int>, queue: seq<int>, holder: map<int, int>)

  /** Slot k is in exactly one place if it is in the pool, else nowhere. */
  ghost predicate Placed(max: nat, p: Places, k: int) {
    && (0 <= k < max <==> k in p.free || k in p.queue || k in p.holder)
    && !(k in p.free && k in p.queue) && !(k in p.free && k in p.holder) && !(k in p.queue && k in p.holder)
  }

  ghost predicate Partition(max: nat, p: Places) {
    forall k {:trigger Placed(max, p, k)} :: Placed(max, p, k)
  }

  /** A held slot is held by exactly the thread that is copying into or out of it. */
  ghost predicate HoldersOk(p: Places, phases: Phases) {
    && (forall t {:trigger t in phases} :: t in phases ==> phases[t].slot in p.holder && p.holder[phases[t].slot] == t)
    && (forall k {:trigger k in p.holder} :: k in p.holder ==> p.holder[k] in phases && phases[p.holder[k]].slot == k)
  }

  // Bytes.

  function Base(size: nat, k: int): int { k * (size + 4) + 4 }

  lemma {:induction false} BaseBounds(size: nat, max: nat, k: int, l: int)
    requires 0 <= k < max && 0 <= l < max
    ensures 4 <= Base(size, k) && Base(size, k) + size <= max * (size + 4)
    ensures k < l ==> Base(size, k) + size < Base(size, l)
  {
    var w := size + 4;
    assert k * w + w == (k + 1) * w && (k + 1) * w <= max * w;
    assert k < l ==> (k + 1) * w <= l * w;
    assert 0 <= k * w;
  }

  /** The data area of slot k. */
  function Payload(pool: seq<byte>, size: nat, max: nat, k: int): (r: seq<byte>)
    requires 0 <= k < max && |pool| >= max * (size + 4)
    ensures |r| == size
  {
    BaseBounds(size, max, k, k);
    pool[Base(size, k)..Base(size, k) + size]
  }

  lemma WritePayload(pool: seq<byte>, size: nat, max: nat, k: int, j: nat, b: byte, l: int)
    requires 0 <= k < max && 0 <= l < max && j < size && |pool| >= max * (size + 4)
    ensures 0 <= Base(size, k) + j < |pool|
    ensures Payload(pool[Base(size, k) + j := b], size, max, l) == if l == k then Payload(pool, size, max, k)[j := b]
            else Payload(pool, size, max, l)
  {
    BaseBounds(size, max, k, l);
    BaseBounds(size, max, l, k);
    hide Base;
  }

  /** A queued or draining slot still begins with the message that was sent in it. */
  ghost predicate Intact(pool: seq<byte>, size: nat, max: nat, message: map<int, seq<byte>>, k: int) {
    && 0 <= k < max && |pool| >= max * (size + 4)
    && k in message && |message[k]| <= size && message[k] == Payload(pool, size, max, k)[..|message[k]|]
  }

  ghost predicate PhaseOk(pool: seq<byte>, size: nat, max: nat, message: map<int, seq<byte>>, h: Phase) {
    && 0 <= h.slot < max && |pool| >= max * (size + 4)
    && match h
       case Filling(k, buffer, copied, _, _) =>
         0 < |buffer| <= size && copied <= |buffer| && buffer[..copied] == Payload(pool, size, max, k)[..copied]
       case Draining(k, want, got) =>
         Intact(pool, size, max, message, k) && |got| <= want <= size && got == Payload(pool, size, max, k)[..|got|]
  }

  ghost predicate BytesOk(pool: seq<byte>, size: nat, max: nat, message: map<int, seq<byte>>, p: Places,
                          phases: Phases) {
    && (forall k {:trigger k in p.queue} :: k in p.queue ==> Intact(pool, size, max, message, k))
    && (forall t {:trigger t in phases} :: t in phases ==> PhaseOk(pool, size, max, message, phases[t]))
  }

  /** The messages in the queue, first to leave first. */
  function Messages(message: map<int, seq<byte>>, q: seq<int>): (r: seq<seq<byte>>)
    ensures |r| == |q|
  {
    if q == [] then [] else [if q[0] in message then message[q[0]] else []] + Messages(message, q[1..])
  }

  lemma {:induction false} MessagesConcat(message: map<int, seq<byte>>, a: seq<int>, b: seq<int>)
    ensures Messages(message, a + b) == Messages(message, a) + Messages(message, b)
  {
    if a == [] {
      assert a + b == b;
    } else {
      assert (a + b)[1..] == a[1..] + b;
      MessagesConcat(message, a[1..], b);
    }
  }

  lemma {:induction false} MessagesSame(message: map<int, seq<byte>>, k: int, m: seq<byte>, q: seq<int>)
    requires k !in q
    ensures Messages(message[k := m], q) == Messages(message, q)
  {
    if q != [] {
      MessagesSame(message, k, m, q[1..]);
    }
  }

  lemma LinkedMessages(message: map<int, seq<byte>>, q: seq<int>, k: int, m: seq<byte>)
    requires k !in q
    ensures Messages(message[k := m], q + [k]) == Messages(message, q) + [m]
    ensures Messages(message[k := m], [k] + q) == [m] + Messages(message, q)
  {
    MessagesSame(message, k, m, q);
    MessagesConcat(message[k := m], q, [k]);
    MessagesConcat(message[k := m], [k], q);
    assert [k][1..] == [];
  }

  ghost predicate EndsOk(next: Links, phases: Phases) {
    forall t {:trigger t in phases} :: t in phases && phases[t].Filling? && phases[t].terminated ==>
      phases[t].slot in next && next[phases[t].slot] == NULL
  }

  ghost predicate CarriesOk(phases: Phases, message: map<int, seq<byte>>, taken: map<int, seq<byte>>) {
    forall t {:trigger t in phases} :: t in phases && phases[t].Draining? ==>
      t in taken && phases[t].slot in message && taken[t] == message[phases[t].slot]
  }

  /** A thread leaves, and a link is written that belongs to none of the others. */
  lemma LeaveKeeps(next: Links, phases: Phases, message: map<int, seq<byte>>, taken: map<int, seq<byte>>, t: int,
                   k: int, v: int, m: seq<byte>, l: int)
    requires EndsOk(next, phases) && CarriesOk(phases, message, taken)
    requires forall u {:trigger u in phases} :: u in phases && u != t ==> phases[u].slot != k && phases[u].slot != l
    ensures EndsOk(next, phases - {t}) && EndsOk(next[k := v], phases - {t})
    ensures CarriesOk(phases - {t}, message, taken) && CarriesOk(phases - {t}, message[l := m], taken)
  {
  }

  /** A thread starts to drain the message of slot k. */
  lemma EnterKeeps(next: Links, phases: Phases, message: map<int, seq<byte>>, taken: map<int, seq<byte>>, t: int,
                   k: int, want: nat)
    requires EndsOk(next, phases) && CarriesOk(phases, message, taken) && k in message && t !in phases
    ensures EndsOk(next, phases[t := Draining(k, want, [])])
            && CarriesOk(phases[t := Draining(k, want, [])], message, taken[t := message[k]])
  {
  }

  // One step each, on values.

  function Claimed(p: Places, t: int): Places
    requires p.free != []
  {
    Places(p.free[1..], p.queue, p.holder[p.free[0] := t])
  }

  function Linked(p: Places, k: int, urgent: bool): Places {
    Places(p.free, if urgent then [k] + p.queue else p.queue + [k], p.holder - {k})
  }

  function Unlinked(p: Places, t: int): Places
    requires p.queue != []
  {
    Places(p.free, p.queue[1..], p.holder[p.queue[0] := t])
  }

  function Recycled(p: Places, k: int): Places {
    Places([k] + p.free, p.queue, p.holder - {k})
  }

  function Dropped(p: Places): Places
    requires p.queue != []
  {
    Places([p.queue[0]] + p.free, p.queue[1..], p.holder)
  }

  lemma ClaimKeeps(max: nat, p: Places, phases: Phases, t: int, h: Phase)
    requires Partition(max, p) && HoldersOk(p, phases) && p.free != [] && NoRepeats(p.free) && t !in phases
             && h.slot == p.free[0]
    ensures Partition(max, Claimed(p, t)) && HoldersOk(Claimed(p, t), phases[t := h]) && 0 <= h.slot < max
            && h.slot !in p.queue && h.slot !in p.holder
  {
    hide NoRepeats;
    HeadOnce(p.free);
    var k0 := h.slot;
    assert Placed(max, p, k0);
    var p' := Claimed(p, t);
    forall k ensures Placed(max, p', k) {
      assert Placed(max, p, k);
    }
  }

  lemma UnlinkKeeps(max: nat, p: Places, phases: Phases, t: int, h: Phase)
    requires Partition(max, p) && HoldersOk(p, phases) && p.queue != [] && NoRepeats(p.queue) && t !in phases
             && h.slot == p.queue[0]
    ensures Partition(max, Unlinked(p, t)) && HoldersOk(Unlinked(p, t), phases[t := h]) && 0 <= h.slot < max
  {
    hide NoRepeats;
    HeadOnce(p.queue);
    var k0 := h.slot;
    assert Placed(max, p, k0);
    var p' := Unlinked(p, t);
    forall k ensures Placed(max, p', k) {
      assert Placed(max, p, k);
    }
  }

  lemma LetGo(p: Places, phases: Phases, t: int)
    requires HoldersOk(p, phases) && t in phases
    ensures phases[t].slot in p.holder
    ensures forall q: Places {:trigger HoldersOk(q, phases - {t})} :: q.holder == p.holder - {phases[t].slot} ==>
              HoldersOk(q, phases - {t})
  {
  }

  lemma LinkKeeps(max: nat, p: Places, phases: Phases, t: int, urgent: bool)
    requires Partition(max, p) && HoldersOk(p, phases) && t in phases
    ensures var k := phases[t].slot;
            Partition(max, Linked(p, k, urgent)) && HoldersOk(Linked(p, k, urgent), phases - {t}) && k !in p.queue
              && k !in p.free && 0 <= k < max
  {
    var k0 := phases[t].slot;
    assert Placed(max, p, k0);
    LetGo(p, phases, t);
    hide HoldersOk;
    var p' := Linked(p, k0, urgent);
    forall k ensures Placed(max, p', k) {
      assert Placed(max, p, k);
    }
  }

  lemma RecycleKeeps(max: nat, p: Places, phases: Phases, t: int)
    requires Partition(max, p) && HoldersOk(p, phases) && t in phases
    ensures var k := phases[t].slot;
            Partition(max, Recycled(p, k)) && HoldersOk(Recycled(p, k), phases - {t}) && k !in p.queue && k !in p.free
  {
    var k0 := phases[t].slot;
    assert Placed(max, p, k0);
    LetGo(p, phases, t);
    hide HoldersOk;
    var p' := Recycled(p, k0);
    forall k ensures Placed(max, p', k) {
      assert Placed(max, p, k);
    }
  }

  lemma DropKeeps(max: nat, p: Places, phases: Phases)
    requires Partition(max, p) && HoldersOk(p, phases) && p.queue != [] && NoRepeats(p.queue)
    ensures Partition(max, Dropped(p)) && HoldersOk(Dropped(p), phases) && p.queue[0] !in p.free
  {
    hide NoRepeats;
    HeadOnce(p.queue);
    assert Placed(max, p, p.queue[0]);
    var p' := Dropped(p);
    forall k ensures Placed(max, p', k) {
      assert Placed(max, p, k);
    }
  }

  /** A byte copied into a slot that is being filled disturbs nobody else. */
  lemma CopyInKeeps(pool: seq<byte>, size: nat, max: nat, message: map<int, seq<byte>>, p: Places, phases: Phases,
                    t: int)
    requires BytesOk(pool, size, max, message, p, phases) && HoldersOk(p, phases) && Partition(max, p)
    requires t in phases && phases[t].Filling? && phases[t].copied < |phases[t].buffer|
    ensures var h := phases[t];
            && 0 <= Base(size, h.slot) + h.copied < |pool|
            && BytesOk(pool[Base(size, h.slot) + h.copied := h.buffer[h.copied]], size, max, message, p,
                       phases[t := h.(copied := h.copied + 1)])
  {
    var h := phases[t];
    var k, j := h.slot, h.copied;
    assert Placed(max, p, k);
    assert PhaseOk(pool, size, max, message, h);
    WritePayload(pool, size, max, k, j, h.buffer[j], k);
    var pool', phases' := pool[Base(size, k) + j := h.buffer[j]], phases[t := h.(copied := j + 1)];
    hide Base, Payload, Partition;
    forall l | l in p.queue ensures Intact(pool', size, max, message, l) {
      assert Intact(pool, size, max, message, l);
      assert Placed(max, p, l);
      QueuedNotHeld(max, p, k, l);
      WritePayload(pool, size, max, k, j, h.buffer[j], l);
    }
    forall u | u in phases' ensures PhaseOk(pool', size, max, message, phases'[u]) {
      if u == t {
        assert h.buffer[..j + 1] == h.buffer[..j] + [h.buffer[j]];
        assert Payload(pool', size, max, k)[..j + 1] == Payload(pool, size, max, k)[..j] + [h.buffer[j]];
      } else {
        assert PhaseOk(pool, size, max, message, phases[u]);
        WritePayload(pool, size, max, k, j, h.buffer[j], phases[u].slot);
      }
    }
  }

  lemma QueuedNotHeld(max: nat, p: Places, k: int, l: int)
    requires Partition(max, p) && k in p.holder && l in p.queue
    ensures k != l && k !in p.free && l !in p.free && 0 <= k < max && 0 <= l < max
  {
    assert Placed(max, p, k) && Placed(max, p, l);
  }

  lemma CopyOutKeeps(pool: seq<byte>, size: nat, max: nat, message: map<int, seq<byte>>, p: Places, phases: Phases,
                     t: int)
    requires BytesOk(pool, size, max, message, p, phases) && t in phases && phases[t].Draining?
             && |phases[t].got| < phases[t].want
    ensures var h := phases[t];
            && 0 <= Base(size, h.slot) + |h.got| < |pool|
            && BytesOk(pool, size, max, message, p,
                       phases[t := h.(got := h.got + [pool[Base(size, h.slot) + |h.got|]])])
  {
    var h := phases[t];
    assert PhaseOk(pool, size, max, message, h);
    BaseBounds(size, max, h.slot, h.slot);
    var n := |h.got|;
    var r := Payload(pool, size, max, h.slot);
    assert r[n] == pool[Base(size, h.slot) + n];
    assert r[..n + 1] == r[..n] + [r[n]];
    hide Base, Payload;
  }

  /** A finished message enters the queue. */
  lemma LinkBytes(pool: seq<byte>, size: nat, max: nat, message: map<int, seq<byte>>, p: Places, phases: Phases, t: int,
                  urgent: bool)
    requires BytesOk(pool, size, max, message, p, phases) && HoldersOk(p, phases) && Partition(max, p)
    requires t in phases && phases[t].Filling? && phases[t].copied == |phases[t].buffer|
    ensures BytesOk(pool, size, max, message[phases[t].slot := phases[t].buffer], Linked(p, phases[t].slot, urgent),
                    phases - {t})
  {
    var h := phases[t];
    var k := h.slot;
    assert PhaseOk(pool, size, max, message, h);
    assert h.buffer[..h.copied] == h.buffer;
    hide Base, Payload, Partition;
    var message' := message[k := h.buffer];
    forall l | l in Linked(p, k, urgent).queue ensures Intact(pool, size, max, message', l) {
      if l != k {
        assert Intact(pool, size, max, message, l);
      }
    }
    forall u | u in phases - {t} ensures PhaseOk(pool, size, max, message', phases[u]) {
      assert PhaseOk(pool, size, max, message, phases[u]);
      assert phases[u].slot != k;
    }
  }

  /** Nothing to do with bytes: fewer queued slots, fewer or equally entitled threads. */
  lemma BytesFrame(pool: seq<byte>, size: nat, max: nat, message: map<int, seq<byte>>, p: Places, phases: Phases,
                   p': Places, phases': Phases)
    requires BytesOk(pool, size, max, message, p, phases)
    requires forall k {:trigger k in p'.queue} :: k in p'.queue ==> k in p.queue
    requires forall t {:trigger t in phases'} :: t in phases' ==>
               (t in phases && phases'[t] == phases[t]) || PhaseOk(pool, size, max, message, phases'[t])
    ensures BytesOk(pool, size, max, message, p', phases')
  {
    hide PhaseOk, Intact;
  }

  // The waiting receivers, as a mailbox crowd without senders.

  /** While someone waits, every message in the queue has a woken receiver on its way. */
  ghost predicate ReceiversOk(top: int, s: Sys, c: Mailbox.Crowd, error: map<Thread, int>, entry: int) {
    SysOk(top, s) && c.senders == [] && c.wokenSenders == {} && Mailbox.CrowdOk(s, c, error, 0, entry)
  }

  /** Without waiting senders the capacity does not matter. */
  lemma AnySize(s: Sys, c: Mailbox.Crowd, error: map<Thread, int>, size: int, entry: int)
    requires c.senders == []
    ensures Mailbox.CrowdOk(s, c, error, size, entry) == Mailbox.CrowdOk(s, c, error, 0, entry)
  {
    hide Waiting, Mailbox.AllAwake, Mailbox.Apart, Mailbox.ErrorsOk;
  }

  /** A message is linked, and the first waiting receiver is woken. */
  lemma ArrivalKeeps(top: int, s: Sys, c: Mailbox.Crowd, error: map<Thread, int>, entry: int)
    requires ReceiversOk(top, s, c, error, entry)
    ensures c.receivers != [] ==> c.receivers[0] in s.tcb && s.tcb[c.receivers[0]].stat == Suspended
    ensures var c' := if c.receivers == [] then c
                      else c.(receivers := c.receivers[1..], wokenReceivers := c.wokenReceivers + {c.receivers[0]});
            ReceiversOk(top, Mailbox.FirstWoken(s, c.receivers), c', error, entry + 1)
  {
    Nobody(top, s, c, error, entry);
    hide Mailbox.CrowdOk, SysOk, Mailbox.FirstWoken, Mailbox.Inside;
    AnySize(s, c, error, entry + 1, entry);
    Mailbox.PutKeeps(top, s, c, error, entry + 1, entry, 0);
    AnySize(Mailbox.FirstWoken(s, c.receivers), Mailbox.AfterPut(c, 0), error, entry + 1, entry + 1);
    assert c.wokenSenders - {0} == {};
  }

  lemma NobodyThere(top: int, s: Sys)
    requires SysOk(top, s)
    ensures ReceiversOk(top, s, Mailbox.Crowd([], [], {}, {}, {}), map[], 0)
  {
    hide SysOk;
  }

  /** Thread 0, the sender from an interrupt, is in no call. */
  lemma Nobody(top: int, s: Sys, c: Mailbox.Crowd, error: map<Thread, int>, entry: int)
    requires ReceiversOk(top, s, c, error, entry)
    ensures !Mailbox.Inside(c, 0)
  {
  }

  /** A receiver takes a message. */
  lemma TakeKeeps(top: int, s: Sys, c: Mailbox.Crowd, error: map<Thread, int>, entry: int, t: Thread)
    requires ReceiversOk(top, s, c, error, entry) && entry > 0 && (t in c.wokenReceivers || !Mailbox.Inside(c, t))
    ensures ReceiversOk(top, s, c.(wokenReceivers := c.wokenReceivers - {t}), error, entry - 1)
  {
    hide Mailbox.CrowdOk, SysOk, Mailbox.Inside;
    Mailbox.GetKeeps(top, s, c, error, 0, entry, t);
  }

  /** A receiver finds nothing and has no time left. */
  lemma QuitKeeps(top: int, s: Sys, c: Mailbox.Crowd, error: map<Thread, int>, t: Thread)
    requires ReceiversOk(top, s, c, error, 0) && (t in c.wokenReceivers || !Mailbox.Inside(c, t))
    ensures ReceiversOk(top, s, c.(wokenReceivers := c.wokenReceivers - {t}),
                        if t in c.wokenReceivers then error[t := Mailbox.ETIMEOUT] else error, 0)
  {
    hide Mailbox.CrowdOk, SysOk, Mailbox.Inside;
    if t in c.wokenReceivers {
      Mailbox.ReceiverQuitKeeps(s, c, error, 0, t, Mailbox.ETIMEOUT);
    } else {
      assert c.wokenReceivers - {t} == c.wokenReceivers;
    }
  }

  /** A receiver finds nothing and waits. */
  lemma WaitKeeps(top: int, s: Sys, c: Mailbox.Crowd, error: map<Thread, int>, flag: Flag)
    requires ReceiversOk(top, s, c, error, 0) && s.current in s.tcb && s.tcb[s.current].stat == Running
    requires s.current in c.wokenReceivers || !Mailbox.Inside(c, s.current)
    ensures ReceiversOk(top, Retired(s, s.current, Suspended), Mailbox.ReceiverBlocks(c, s.tcb, flag, s.current),
                        error[s.current := Mailbox.EOK], 0)
  {
    hide Mailbox.CrowdOk, SysOk, Mailbox.Inside, Retired, Enqueued;
    Mailbox.ReceiverBlockKeeps(top, s, c, error, 0, flag);
  }

  /** A waiter leaves with an error. */
  lemma ExpelledKeeps(top: int, s: Sys, c: Mailbox.Crowd, error: map<Thread, int>, entry: int, w: Thread, code: int)
    requires ReceiversOk(top, s, c, error, entry) && w in c.receivers
             && (code == Mailbox.ETIMEOUT || code == Mailbox.ERROR)
    ensures w in s.tcb && AttributesOk(top, s.tcb[w]) && SysOk(top, Inserted(s, w))
            && |Minus(c.receivers, w)| < |c.receivers|
    ensures ReceiversOk(top, Inserted(s, w), c.(receivers := Minus(c.receivers, w), expelled := c.expelled + {w}),
                        error[w := code], entry)
    ensures forall u {:trigger u in Minus(c.receivers, w)} {:trigger u in c.receivers} ::
              u in Minus(c.receivers, w) <==> u in c.receivers && u != w
  {
    hide Mailbox.CrowdOk, SysOk, Inserted, Minus, AttributesOk;
    Mailbox.ExpelKeeps(top, s, c, error, 0, entry, w, code);
    NoneLess(w);
  }

  lemma NoneLess(w: Thread)
    ensures Minus([], w) == []
  {
  }

  /** With nobody waiting the queue may be emptied. */
  lemma EmptiedKeeps(top: int, s: Sys, c: Mailbox.Crowd, error: map<Thread, int>, entry: int)
    requires ReceiversOk(top, s, c, error, entry) && c.receivers == []
    ensures ReceiversOk(top, s, c, error, 0)
  {
    hide Mailbox.CrowdOk, SysOk;
    Mailbox.ResetKeeps(s, c, error, 0, entry);
  }

  lemma FailKeeps(top: int, s: Sys, c: Mailbox.Crowd, error: map<Thread, int>, entry: int, t: Thread)
    requires ReceiversOk(top, s, c, error, entry) && t in c.expelled
    ensures t in error && (error[t] == Mailbox.ETIMEOUT || error[t] == Mailbox.ERROR)
    ensures ReceiversOk(top, s, c.(expelled := c.expelled - {t}), error, entry)
  {
    hide Waiting;
  }

  lemma TurnKeeps(top: int, s: Sys, h: int, c: Mailbox.Crowd, error: map<Thread, int>, entry: int)
    requires ReceiversOk(top, s, c, error, entry) && s.current != 0 && IsFirst(s.queues, h)
             && QueueAt(s.queues, h) != []
    ensures s.current in s.tcb && QueueAt(s.queues, h)[0] in s.tcb && ReceiversOk(top, Scheduled(s, h), c, error, entry)
  {
    hide Mailbox.CrowdOk, SysOk, Scheduled, IsFirst;
    Mailbox.ScheduleKeeps(top, s, h, c, error, 0, entry);
    ScheduleRunsTop(top, s, h);
  }

  lemma OthersKeep(top: int, s: Sys, s': Sys, t: Thread, c: Mailbox.Crowd, error: map<Thread, int>, entry: int)
    requires ReceiversOk(top, s, c, error, entry) && SysOk(top, s')
    requires Others.Undisturbed(s, s', t) && !Mailbox.Inside(c, t)
    ensures ReceiversOk(top, s', c, error, entry)
  {
    hide Mailbox.CrowdOk, SysOk, Mailbox.Inside, Others.Undisturbed;
    Mailbox.OthersKeep(s, s', t, c, error, 0, entry);
  }

  // The order of the waiting receivers.

  lemma ArrivalOrder(top: int, s: Sys, c: Mailbox.Crowd, error: map<Thread, int>, entry: int, flag: Flag,
                     arrival: map<Thread, int>, ticket: int, cause: map<Thread, Mailbox.Cause>, s': Sys,
                     c': Mailbox.Crowd)
    requires ReceiversOk(top, s, c, error, entry) && Mailbox.LinesOk(flag, c, s.tcb, arrival, ticket)
    requires Mailbox.CausesOk(c.expelled, cause, error) && Mailbox.WokeFirst(s, c.receivers, s')
    requires c' == if c.receivers == [] then c
                   else c.(receivers := c.receivers[1..], wokenReceivers := c.wokenReceivers + {c.receivers[0]})
    ensures Mailbox.LinesOk(flag, c', s'.tcb, arrival, ticket) && Mailbox.CausesOk(c'.expelled, cause, error)
    ensures c.receivers != [] ==> IsNext(flag, c.receivers[0], c.receivers, s.tcb, arrival)
  {
    Mailbox.LinesFirst(flag, c, s.tcb, arrival, ticket);
    assert c' == Mailbox.AfterPut(c, 0) by {
      assert c.wokenSenders - {0} == c.wokenSenders;
    }
    hide Mailbox.CrowdOk, Mailbox.LinesOk, Mailbox.CausesOk, Mailbox.WokeFirst, SysOk, IsNext;
    Mailbox.PutLines(s, c, error, 0, entry, flag, arrival, ticket, cause, 0, s');
    assert Mailbox.AfterPut(c, 0).expelled == c.expelled;
  }

  lemma ReceiveOrder(r: RecvOutcome, s: Sys, c: Mailbox.Crowd, error: map<Thread, int>, entry: int, flag: Flag,
                     arrival: map<Thread, int>, ticket: int, cause: map<Thread, Mailbox.Cause>, top: int, s': Sys,
                     c': Mailbox.Crowd, error': map<Thread, int>)
    requires ReceiversOk(top, s, c, error, entry) && Mailbox.LinesOk(flag, c, s.tcb, arrival, ticket)
    requires Mailbox.CausesOk(c.expelled, cause, error) && s.current in s.tcb
    requires s.current in c.wokenReceivers || !Mailbox.Inside(c, s.current)
    requires !r.RecvBlocked? ==> c' == c.(wokenReceivers := c.wokenReceivers - {s.current}) && s' == s
    requires !r.RecvBlocked? ==> error' == error || error' == error[s.current := Mailbox.ETIMEOUT]
    requires r.RecvBlocked? ==>
               && c' == Mailbox.ReceiverBlocks(c, s.tcb, flag, s.current) && s' == Retired(s, s.current, Suspended)
               && error' == error[s.current := Mailbox.EOK]
    ensures Mailbox.CausesOk(c'.expelled, cause, error')
    ensures if r.RecvBlocked? then Mailbox.LinesOk(flag, c', s'.tcb, arrival[s.current := ticket], ticket + 1)
            else Mailbox.LinesOk(flag, c', s'.tcb, arrival, ticket)
  {
    Mailbox.PutExpelled(c, s.current);
    hide Mailbox.CrowdOk, Mailbox.LinesOk, Mailbox.CausesOk, Mailbox.ReceiverBlocks, Mailbox.Inside, SysOk, Retired;
    if r.RecvBlocked? {
      Mailbox.ReceiverLines(s, c, error, 0, entry, flag, arrival, ticket, cause);
    } else {
      Mailbox.QuitLines(s, c, error, 0, entry, flag, arrival, ticket, cause, s.current, Mailbox.ETIMEOUT);
    }
  }

  lemma ExpelOrder(s: Sys, c: Mailbox.Crowd, error: map<Thread, int>, flag: Flag, arrival: map<Thread, int>,
                   ticket: int, cause: map<Thread, Mailbox.Cause>, w: Thread, why: Mailbox.Cause)
    requires Mailbox.LinesOk(flag, c, s.tcb, arrival, ticket) && w in s.tcb && c.senders == []
    requires Mailbox.CausesOk(c.expelled, cause, error)
    ensures var c' := c.(receivers := Minus(c.receivers, w), expelled := c.expelled + {w});
            && Mailbox.LinesOk(flag, c', Inserted(s, w).tcb, arrival, ticket)
            && Mailbox.CausesOk(c'.expelled, cause[w := why], error[w := Mailbox.CodeOf(why)])
  {
    NoneLess(w);
    hide Mailbox.LinesOk, Mailbox.CausesOk, Mailbox.CodeOf, Inserted, Minus;
    Mailbox.ExpelLines(s, c, error, flag, arrival, ticket, cause, w, why);
  }

  lemma TurnOrder(top: int, s: Sys, h: int, flag: Flag, c: Mailbox.Crowd, error: map<Thread, int>, entry: int,
                  arrival: map<Thread, int>, ticket: int)
    requires ReceiversOk(top, s, c, error, entry) && s.current != 0 && QueueAt(s.queues, h) != []
    requires Mailbox.LinesOk(flag, c, s.tcb, arrival, ticket)
    ensures s.current in s.tcb && QueueAt(s.queues, h)[0] in s.tcb
    ensures Mailbox.LinesOk(flag, c, Scheduled(s, h).tcb, arrival, ticket)
  {
    hide Mailbox.CrowdOk, Mailbox.LinesOk, SysOk, Scheduled;
    Mailbox.ScheduleLines(top, s, h, flag, c, arrival, ticket);
  }

  /** Nobody waits for what is there: with no receiver on its way, receivers wait only at an empty queue. */
  lemma NobodyWaitsInVain(top: int, s: Sys, c: Mailbox.Crowd, error: map<Thread, int>, entry: int)
    requires ReceiversOk(top, s, c, error, entry) && entry >= 0
    ensures c.receivers != [] && c.wokenReceivers == {} ==> entry == 0
  {
    hide SysOk, Mailbox.CrowdOk;
    AnySize(s, c, error, entry, entry);
    Mailbox.NobodyWaitsInVain(s, c, error, entry, entry);
  }

  datatype SendOutcome = TooBig | Full | Begun

  datatype RecvOutcome = Taking | Empty | RecvBlocked

  class MessageQueue {
    const sched: Scheduler
    const flag: Flag
    const msgSize: nat
    const maxMsgs: nat
    const msgPool: array<byte>
    var next: Links                          // msg->next of every slot
    var queueHead: int                       // msg_queue_head
    var queueTail: int                       // msg_queue_tail
    var freeHead: int                        // msg_queue_free
    var entry: int
    var phases: Phases                       // local variables of the calls in progress
    var receivers: seq<Thread>               // parent.suspend_thread
    var error: map<Thread, int>              // thread->error, negated
    ghost var woken: set<Thread>             // resumed in rt_mq_recv with RT_EOK, not yet running
    ghost var expelled: set<Thread>          // resumed with an error, not yet returned
    ghost var cause: map<Thread, Mailbox.Cause>      // why a thread was last expelled
    ghost var arrival: map<Thread, int>      // when each thread last started to wait
    ghost var ticket: int
    ghost var places: Places
    ghost var message: map<int, seq<byte>>   // what was sent in each slot
    ghost var taken: map<int, seq<byte>>     // the message each receiver last unlinked

    ghost predicate Lists()
      reads this`next, this`queueHead, this`queueTail, this`freeHead, this`entry, this`places
    {
      && Chain(next, queueHead, places.queue) && Chain(next, freeHead, places.free)
      && queueTail == Last(places.queue) && entry == |places.queue|
    }

    /** A message that rt_mq_send has finished with ends the list. */
    ghost predicate Ends()
      reads this`next, this`phases
    {
      EndsOk(next, phases)
    }

    /** A receiver's slot still carries the message it unlinked. */
    ghost predicate TakenOk()
      reads this`phases, this`message, this`taken
    {
      CarriesOk(phases, message, taken)
    }

    ghost predicate Slots()
      reads this`places, this`phases
    {
      Partition(maxMsgs, places) && HoldersOk(places, phases)
    }

    ghost predicate Bytes()
      reads this`places, this`phases, this`message, msgPool
    {
      msgPool.Length >= maxMsgs * (msgSize + 4) && BytesOk(msgPool[..], msgSize, maxMsgs, message, places, phases)
    }

    /** The slots, the lists and the bytes are in order. */
    ghost predicate Stored()
      reads this, msgPool
    {
      Lists() && Ends() && TakenOk() && Slots() && Bytes()
    }

    ghost function People(): Mailbox.Crowd
      reads this`receivers, this`woken, this`expelled
    {
      Mailbox.Crowd(receivers, [], woken, {}, expelled)
    }

    /** The waiting receivers are in order, and no wakeup is lost. */
    ghost predicate Waits()
      reads this`receivers, this`woken, this`expelled, this`error, this`entry, sched
    {
      sched.Valid() && ReceiversOk(sched.top, sched.State(), People(), error, entry)
    }

    ghost predicate Core()
      reads this, msgPool, sched
    {
      Stored() && Waits()
    }

    /** The list is in the order of the flag, and who waited in vain will be told why. */
    ghost predicate Order()
      reads this`receivers, this`woken, this`expelled, this`error, this`cause, this`arrival, this`ticket, sched
    {
      Mailbox.LinesOk(flag, People(), sched.tcb, arrival, ticket) && Mailbox.CausesOk(expelled, cause, error)
    }

    ghost predicate Valid()
      reads this, msgPool, sched
    {
      Core() && Order()
    }

    /** The running thread is in no rt_mq_recv, or has just been woken in one. */
    ghost predicate Looks()
      reads this`receivers, this`woken, this`expelled, sched
    {
      && sched.current in sched.tcb && sched.tcb[sched.current].stat == Running
      && (sched.current in woken || !Mailbox.Inside(People(), sched.current))
    }

    lemma ValidFacts()
      requires Valid()
      ensures Core() && Order() && ReceiversOk(sched.top, sched.State(), People(), error, entry)
      ensures Mailbox.LinesOk(flag, People(), sched.tcb, arrival, ticket) && Mailbox.CausesOk(expelled, cause, error)
    {
    }

    lemma Facts()
      requires Valid() && Looks()
      ensures Core() && ReceiversOk(sched.top, sched.State(), People(), error, entry)
      ensures Mailbox.LinesOk(flag, People(), sched.tcb, arrival, ticket) && Mailbox.CausesOk(expelled, cause, error)
      ensures sched.current in sched.tcb && (sched.current in woken || !Mailbox.Inside(People(), sched.current))
    {
      ValidFacts();
    }

    lemma ValidNow()
      requires Core() && Mailbox.LinesOk(flag, People(), sched.tcb, arrival, ticket)
      requires Mailbox.CausesOk(expelled, cause, error)
      ensures Valid()
    {
    }

    lemma Names()
      ensures People() == Mailbox.Crowd(receivers, [], woken, {}, expelled)
      ensures sched.State() == Sys(sched.queues, sched.tcb, sched.current)
    {
    }

    /** The messages in the queue, first to leave first. */
    ghost function Contents(): seq<seq<byte>>
      reads this`places, this`message
    {
      Messages(message, places.queue)
    }

    /** rt_mq_init; both sizes are kept in 16 bits. */
    constructor (sched: Scheduler, flag: Flag, pool: array<byte>, msgSize: u32)
      requires sched.Valid()
      ensures this.sched == sched && this.flag == flag && receivers == [] && woken == expelled == {}
      ensures Valid() && msgPool == pool && this.msgSize == AlignUp(msgSize) % 65536
              && maxMsgs == pool.Length / (this.msgSize + 4) % 65536
      ensures Contents() == [] && phases == map[] && |places.free| == maxMsgs
    {
      var size := AlignUp(msgSize) % 65536;
      var max := pool.Length / (size + 4) % 65536;
      this.sched, this.flag, this.msgPool, this.msgSize, maxMsgs := sched, flag, pool, size, max;
      receivers, error, woken, expelled := [], map[], {}, {};
      cause, arrival, ticket := map[], map[], 0;
      queueHead, queueTail, freeHead, entry, next, phases := NULL, NULL, NULL, 0, map[], map[];
      places, message, taken := Places([], [], map[]), map[], map[];
      new;
      NobodyThere(sched.top, sched.State());
      hide ReceiversOk, SysOk, BitsOk;
      Fill();
      PoolHolds(pool.Length, size + 4, max);
    }

    /** The loop that puts all slots on the free list. */
    method Fill()
      requires next == map[] && freeHead == NULL && places == Places([], [], map[]) && queueHead == NULL
      modifies this`next, this`freeHead, this`places
      ensures Chain(next, queueHead, places.queue) && Chain(next, freeHead, places.free)
      ensures places.queue == [] && places.holder == map[] && |places.free| == maxMsgs
      ensures forall i {:trigger i in places.free} :: i in places.free <==> 0 <= i < maxMsgs
    {
      for k := 0 to maxMsgs
        invariant Chain(next, freeHead, places.free) && places.queue == [] && places.holder == map[]
                  && |places.free| == k
        invariant forall i {:trigger i in places.free} :: i in places.free <==> 0 <= i < k
      {
        PushChain(next, freeHead, places.free, k);
        next := next[k := freeHead];
        freeHead := k;
        places := places.(free := [k] + places.free);
      }
    }

    /** The first region of rt_mq_send and rt_mq_urgent. */
    method Begin(t: int, buffer: seq<byte>, urgent: bool) returns (r: SendOutcome)
      requires Valid() && t !in phases && |buffer| != 0
      modifies this`freeHead, this`phases, this`places
      ensures Valid() && Contents() == old(Contents())
      ensures r == if |buffer| > msgSize then TooBig else if old(places.free) == [] then Full else Begun
      ensures r.Begun? ==> places == Claimed(old(places), t)
                           && phases == old(phases)[t := Filling(old(places.free[0]), buffer, 0, urgent, false)]
      ensures !r.Begun? ==> places == old(places) && phases == old(phases)
    {
      hide Partition, HoldersOk, NoRepeats, BytesOk, Waits, Order, CarriesOk, EndsOk;
      var msg := freeHead;
      FreeNull(next, freeHead, maxMsgs, places);
      if |buffer| > msgSize {
        r := TooBig;
      } else if msg == NULL {
        r := Full;
      } else {
        Claim(t, buffer, urgent);
        r := Begun;
      }
    }

    /** The first free slot is the sender's. */
    method Claim(t: int, buffer: seq<byte>, urgent: bool)
      requires Stored() && t !in phases && 0 < |buffer| <= msgSize && places.free != []
      modifies this`freeHead, this`phases, this`places
      ensures Stored() && Contents() == old(Contents())
      ensures places == Claimed(old(places), t)
              && phases == old(phases)[t := Filling(old(places.free[0]), buffer, 0, urgent, false)]
    {
      hide Partition, HoldersOk, NoRepeats, BytesOk;
      var msg := freeHead;
      ghost var h := Filling(msg, buffer, 0, urgent, false);
      FreeNull(next, freeHead, maxMsgs, places);
      PopChain(next, freeHead, places.free);
      ChainDistinct(next, freeHead, places.free);
      ClaimKeeps(maxMsgs, places, phases, t, h);
      BytesFrame(msgPool[..], msgSize, maxMsgs, message, places, phases, Claimed(places, t), phases[t := h]);
      freeHead := next[msg];
      phases := phases[t := Filling(msg, buffer, 0, urgent, false)];
      places := Claimed(places, t);
    }

    /** rt_mq_send clears the link of its message with interrupts enabled. */
    method Terminate(t: int)
      requires Valid() && t in phases && phases[t].Filling? && !phases[t].urgent && !phases[t].terminated
      modifies this`next, this`phases
      ensures Valid() && Contents() == old(Contents())
              && phases == old(phases)[t := old(phases[t]).(terminated := true)]
    {
      hide Partition, BytesOk, Chain, PhaseOk, Waits;
      HeldApart(t);
      ghost var h := phases[t].(terminated := true);
      PhaseAt(t);
      SamePhase(msgPool[..], msgSize, maxMsgs, message, phases[t], h);
      BytesFrame(msgPool[..], msgSize, maxMsgs, message, places, phases, places, phases[t := h]);
      ChainWrite(next, queueHead, places.queue, phases[t].slot, NULL);
      ChainWrite(next, freeHead, places.free, phases[t].slot, NULL);
      next := next[phases[t].slot := NULL];
      phases := phases[t := phases[t].(terminated := true)];
    }

    lemma PhaseAt(t: int)
      requires Bytes() && t in phases
      ensures PhaseOk(msgPool[..], msgSize, maxMsgs, message, phases[t])
    {
    }

    lemma HeldApart(t: int)
      requires Slots() && t in phases
      ensures phases[t].slot !in places.queue && phases[t].slot !in places.free && 0 <= phases[t].slot < maxMsgs
      ensures forall u {:trigger u in phases} :: u in phases && u != t ==> phases[u].slot != phases[t].slot
    {
      assert Placed(maxMsgs, places, phases[t].slot);
    }

    /** One byte of the copy into the slot, with interrupts enabled. */
    method CopyIn(t: int)
      requires Valid() && t in phases && phases[t].Filling? && phases[t].copied < |phases[t].buffer|
      modifies this`phases, msgPool
      ensures Valid() && Contents() == old(Contents())
              && phases == old(phases)[t := old(phases[t]).(copied := old(phases[t].copied) + 1)]
    {
      hide Partition, BytesOk, Chain, Base, Waits;
      CopyInKeeps(msgPool[..], msgSize, maxMsgs, message, places, phases, t);
      var h := phases[t];
      ghost var before := msgPool[..];
      msgPool[Base(msgSize, h.slot) + h.copied] := h.buffer[h.copied];
      assert msgPool[..] == before[Base(msgSize, h.slot) + h.copied := h.buffer[h.copied]];
      phases := phases[t := h.(copied := h.copied + 1)];
    }

    /** The linking of rt_mq_send: the message goes behind the others. */
    method Append(t: int)
      requires Stored() && t in phases && phases[t].Filling? && phases[t].copied == |phases[t].buffer|
               && !phases[t].urgent && phases[t].terminated
      modifies this`next, this`queueHead, this`queueTail, this`entry, this`phases, this`places, this`message
      ensures Stored() && Contents() == old(Contents()) + [old(phases[t].buffer)] && phases == old(phases) - {t}
      ensures places == Linked(old(places), old(phases[t].slot), false) && entry == old(entry) + 1
    {
      hide Partition, BytesOk, Chain, HoldersOk, Messages, EndsOk, CarriesOk;
      HeldApart(t);
      ghost var k, buffer := phases[t].slot, phases[t].buffer;
      LinkKeeps(maxMsgs, places, phases, t, false);
      LinkBytes(msgPool[..], msgSize, maxMsgs, message, places, phases, t, false);
      TerminatedEnd(next, phases, t);
      AppendChain(next, queueHead, places.queue, k);
      LinkedMessages(message, places.queue, k, buffer);
      LastApart(maxMsgs, places, phases);
      LeaveKeeps(next, phases, message, taken, t, Last(places.queue), k, buffer, k);
      if places.queue != [] {
        ChainWrite(next, freeHead, places.free, Last(places.queue), k);
      }
      ChainNull(next, queueHead, places.queue, maxMsgs, places);
      var msg := phases[t].slot;
      message := message[k := buffer];
      if queueTail != NULL {
        next := next[queueTail := msg];
      }
      queueTail := msg;
      if queueHead == NULL {
        queueHead := msg;
      }
      entry := entry + 1;
      phases := phases - {t};
      places := Linked(places, k, false);
    }

    /** The linking of rt_mq_urgent: the message goes before the others. */
    method Prepend(t: int)
      requires Stored() && t in phases && phases[t].Filling? && phases[t].copied == |phases[t].buffer|
               && phases[t].urgent
      modifies this`next, this`queueHead, this`queueTail, this`entry, this`phases, this`places, this`message
      ensures Stored() && Contents() == [old(phases[t].buffer)] + old(Contents()) && phases == old(phases) - {t}
      ensures places == Linked(old(places), old(phases[t].slot), true) && entry == old(entry) + 1
    {
      hide Partition, BytesOk, Chain, HoldersOk, Messages, EndsOk, CarriesOk;
      HeldApart(t);
      ghost var k, buffer := phases[t].slot, phases[t].buffer;
      LinkKeeps(maxMsgs, places, phases, t, true);
      LinkBytes(msgPool[..], msgSize, maxMsgs, message, places, phases, t, true);
      PushChain(next, queueHead, places.queue, k);
      LinkedMessages(message, places.queue, k, buffer);
      ChainWrite(next, freeHead, places.free, k, queueHead);
      LeaveKeeps(next, phases, message, taken, t, k, queueHead, buffer, k);
      ChainNull(next, queueHead, places.queue, maxMsgs, places);
      var msg := phases[t].slot;
      message := message[k := buffer];
      next := next[msg := queueHead];
      queueHead := msg;
      if queueTail == NULL {
        queueTail := msg;
      }
      entry := entry + 1;
      phases := phases - {t};
      places := Linked(places, k, true);
    }

    /** rt_mq_recv takes the first message off the queue. */
    method Unlink(t: int, size: nat)
      requires Stored() && t !in phases && size != 0 && entry != 0
      modifies this`queueHead, this`queueTail, this`entry, this`phases, this`places, this`taken
      ensures Stored() && old(Contents()) != [] && entry == old(entry) - 1
      ensures old(places.queue != []) && places == Unlinked(old(places), t)
      ensures t in taken && old(Contents()) == [taken[t]] + Contents() && taken == old(taken)[t := old(Contents())[0]]
      ensures phases == old(phases)[t := Draining(old(places.queue[0]), Min(size, msgSize), [])]
    {
      hide Partition, BytesOk, Chain, HoldersOk, EndsOk, CarriesOk, Intact;
      var msg := queueHead;
      var want := if size > msgSize then msgSize else size;
      ghost var h := Draining(msg, want, []);
      PopChain(next, queueHead, places.queue);
      ChainDistinct(next, queueHead, places.queue);
      ChainNull(next, next[queueHead], places.queue[1..], maxMsgs, places);
      QueuedIntact();
      DrainStart(msgPool[..], msgSize, maxMsgs, message, msg, want);
      EnterKeeps(next, phases, message, taken, t, msg, want);
      UnlinkKeeps(maxMsgs, places, phases, t, h);
      BytesFrame(msgPool[..], msgSize, maxMsgs, message, places, phases, Unlinked(places, t), phases[t := h]);
      queueHead := next[msg];
      if queueTail == msg {
        queueTail := NULL;
      }
      entry := entry - 1;
      taken := taken[t := message[msg]];
      phases := phases[t := Draining(msg, want, [])];
      places := Unlinked(places, t);
    }

    lemma QueuedIntact()
      requires Bytes() && places.queue != []
      ensures places.queue[0] in message && Intact(msgPool[..], msgSize, maxMsgs, message, places.queue[0])
    {
      var k := places.queue[0];
      assert k in places.queue && Intact(msgPool[..], msgSize, maxMsgs, message, k);
    }

    /** One byte of the copy out of the slot, with interrupts enabled. */
    method CopyOut(t: int) returns (b: byte)
      requires Valid() && t in phases && phases[t].Draining? && |phases[t].got| < phases[t].want
      modifies this`phases
      ensures Valid() && Contents() == old(Contents())
              && phases == old(phases)[t := old(phases[t]).(got := old(phases[t].got) + [b])]
    {
      hide Partition, BytesOk, Chain, Base, Waits;
      CopyOutKeeps(msgPool[..], msgSize, maxMsgs, message, places, phases, t);
      var h := phases[t];
      b := msgPool[Base(msgSize, h.slot) + |h.got|];
      phases := phases[t := h.(got := h.got + [b])];
    }

    /** The last region of rt_mq_recv; the receiver has the bytes of the message it unlinked. */
    method Recycle(t: int) returns (bytes: seq<byte>)
      requires Valid() && t in phases && phases[t].Draining? && |phases[t].got| == phases[t].want
      modifies this`next, this`freeHead, this`phases, this`places
      ensures Valid() && Contents() == old(Contents()) && phases == old(phases) - {t}
              && places == Recycled(old(places), old(phases[t].slot))
      ensures |bytes| == old(phases[t].want) && t in taken
      ensures forall i {:trigger bytes[i]} :: 0 <= i < |bytes| && i < |taken[t]| ==> bytes[i] == taken[t][i]
    {
      hide Partition, BytesOk, Chain, HoldersOk, Payload, Waits;
      HeldApart(t);
      PhaseAt(t);
      var msg := phases[t].slot;
      bytes := phases[t].got;
      Delivered(msgPool[..], msgSize, maxMsgs, message, phases[t]);
      RecycleKeeps(maxMsgs, places, phases, t);
      BytesFrame(msgPool[..], msgSize, maxMsgs, message, places, phases, Recycled(places, msg), phases - {t});
      PushChain(next, freeHead, places.free, msg);
      ChainWrite(next, queueHead, places.queue, msg, freeHead);
      next := next[msg := freeHead];
      freeHead := msg;
      phases := phases - {t};
      places := Recycled(places, msg);
    }

    /** The release loop of rt_mq_control with RT_IPC_CMD_RESET: the queue is drained, calls in progress keep their
        slots. */
    method Drain()
      requires Stored()
      modifies this`next, this`queueHead, this`queueTail, this`freeHead, this`entry, this`places
      ensures Stored() && entry == 0 && Contents() == [] && places.holder == old(places.holder)
    {
      hide Partition, BytesOk, Chain, HoldersOk;
      ChainNull(next, queueHead, places.queue, maxMsgs, places);
      while queueHead != NULL
        invariant Drainable() && places.holder == old(places.holder) && (queueHead == NULL <==> places.queue == [])
        decreases |places.queue|
      {
        DrainOne();
      }
      entry := 0;
    }

    /** Stored but for entry, which the reset sets last. */
    ghost predicate Drainable()
      reads this, msgPool
    {
      && Chain(next, queueHead, places.queue) && Chain(next, freeHead, places.free) && queueTail == Last(places.queue)
      && Ends() && TakenOk() && Slots() && Bytes()
    }

    method DrainOne()
      requires Drainable() && places.queue != []
      modifies this`next, this`queueHead, this`queueTail, this`freeHead, this`places
      ensures Drainable() && places == Dropped(old(places)) && (queueHead == NULL <==> places.queue == [])
    {
      hide Partition, BytesOk, Chain, HoldersOk;
      var msg := queueHead;
      PopChain(next, queueHead, places.queue);
      ChainDistinct(next, queueHead, places.queue);
      ChainNull(next, next[queueHead], places.queue[1..], maxMsgs, places);
      DropKeeps(maxMsgs, places, phases);
      QueuedApart();
      BytesFrame(msgPool[..], msgSize, maxMsgs, message, places, phases, Dropped(places), phases);
      PushChain(next, freeHead, places.free, msg);
      ChainWrite(next, next[msg], places.queue[1..], msg, freeHead);
      queueHead := next[msg];
      if queueTail == msg {
        queueTail := NULL;
      }
      next := next[msg := freeHead];
      freeHead := msg;
      places := Dropped(places);
    }

    method AppendAndWake(t: int)
      requires Core() && t in phases && phases[t].Filling? && phases[t].copied == |phases[t].buffer|
               && !phases[t].urgent && phases[t].terminated
      modifies this`next, this`queueHead, this`queueTail, this`entry, this`phases, this`places, this`message,
               this`receivers, this`woken,
               sched`queues, sched`readyGroup, sched`readyTable, sched`tcb
      ensures Core() && Contents() == old(Contents()) + [old(phases[t].buffer)] && phases == old(phases) - {t}
      ensures places == Linked(old(places), old(phases[t].slot), false)
      ensures Mailbox.WokeFirst(old(sched.State()), old(receivers), sched.State())
      ensures People() == if old(receivers) == [] then old(People())
                          else old(People()).(receivers := old(receivers)[1..],
                                              wokenReceivers := old(woken) + {old(receivers)[0]})
    {
      hide Partition, BytesOk, Chain, HoldersOk, Messages, EndsOk, CarriesOk, ReceiversOk, BitsOk, SysOk, Linked;
      ghost var before := entry;
      Append(t);
      WakeReceiver(before);
    }

    /** The second region of rt_mq_send: the message goes behind the others, and a waiting receiver is resumed. */
    method LinkLast(t: int)
      requires Valid() && t in phases && phases[t].Filling? && phases[t].copied == |phases[t].buffer|
               && !phases[t].urgent && phases[t].terminated
      modifies this`next, this`queueHead, this`queueTail, this`entry, this`phases, this`places, this`message,
               this`receivers, this`woken,
               sched`queues, sched`readyGroup, sched`readyTable, sched`tcb
      ensures Valid() && Contents() == old(Contents()) + [old(phases[t].buffer)] && phases == old(phases) - {t}
      ensures places == Linked(old(places), old(phases[t].slot), false)
      ensures Mailbox.WokeFirst(old(sched.State()), old(receivers), sched.State())
      ensures People() == if old(receivers) == [] then old(People())
                          else old(People()).(receivers := old(receivers)[1..],
                                              wokenReceivers := old(woken) + {old(receivers)[0]})
      ensures old(receivers) != [] ==>
                IsNext(flag, old(receivers)[0], old(receivers), old(sched.tcb), old(arrival))
    {
      hide *;
      ghost var s, c := sched.State(), People();
      ValidFacts();
      Names();
      AppendAndWake(t);
      Names();
      ArrivalOrder(sched.top, s, c, error, old(entry), flag, arrival, ticket, cause, sched.State(), People());
      ValidNow();
    }

    method PrependAndWake(t: int)
      requires Core() && t in phases && phases[t].Filling? && phases[t].copied == |phases[t].buffer|
               && phases[t].urgent
      modifies this`next, this`queueHead, this`queueTail, this`entry, this`phases, this`places, this`message,
               this`receivers, this`woken,
               sched`queues, sched`readyGroup, sched`readyTable, sched`tcb
      ensures Core() && Contents() == [old(phases[t].buffer)] + old(Contents()) && phases == old(phases) - {t}
      ensures places == Linked(old(places), old(phases[t].slot), true)
      ensures Mailbox.WokeFirst(old(sched.State()), old(receivers), sched.State())
      ensures People() == if old(receivers) == [] then old(People())
                          else old(People()).(receivers := old(receivers)[1..],
                                              wokenReceivers := old(woken) + {old(receivers)[0]})
    {
      hide Partition, BytesOk, Chain, HoldersOk, Messages, EndsOk, CarriesOk, ReceiversOk, BitsOk, SysOk, Linked;
      ghost var before := entry;
      Prepend(t);
      WakeReceiver(before);
    }

    /** The second region of rt_mq_urgent: the message goes before the others, and a waiting receiver is resumed. */
    method LinkFirst(t: int)
      requires Valid() && t in phases && phases[t].Filling? && phases[t].copied == |phases[t].buffer|
               && phases[t].urgent
      modifies this`next, this`queueHead, this`queueTail, this`entry, this`phases, this`places, this`message,
               this`receivers, this`woken,
               sched`queues, sched`readyGroup, sched`readyTable, sched`tcb
      ensures Valid() && Contents() == [old(phases[t].buffer)] + old(Contents()) && phases == old(phases) - {t}
      ensures places == Linked(old(places), old(phases[t].slot), true)
      ensures Mailbox.WokeFirst(old(sched.State()), old(receivers), sched.State())
      ensures People() == if old(receivers) == [] then old(People())
                          else old(People()).(receivers := old(receivers)[1..],
                                              wokenReceivers := old(woken) + {old(receivers)[0]})
      ensures old(receivers) != [] ==>
                IsNext(flag, old(receivers)[0], old(receivers), old(sched.tcb), old(arrival))
    {
      hide *;
      ghost var s, c := sched.State(), People();
      ValidFacts();
      Names();
      PrependAndWake(t);
      Names();
      ArrivalOrder(sched.top, s, c, error, old(entry), flag, arrival, ticket, cause, sched.State(), People());
      ValidNow();
    }

    /** rt_ipc_list_resume after a message has been linked. */
    method WakeReceiver(ghost before: int)
      requires sched.Valid() && ReceiversOk(sched.top, sched.State(), People(), error, before) && entry == before + 1
      modifies this`receivers, this`woken, sched`queues, sched`readyGroup, sched`readyTable, sched`tcb
      ensures Waits() && Mailbox.WokeFirst(old(sched.State()), old(receivers), sched.State())
      ensures People() == if old(receivers) == [] then old(People())
                          else old(People()).(receivers := old(receivers)[1..],
                                              wokenReceivers := old(woken) + {old(receivers)[0]})
    {
      hide ReceiversOk, BitsOk, SysOk, Inserted;
      ArrivalKeeps(sched.top, sched.State(), People(), error, before);
      if receivers != [] {
        var w := receivers[0];
        var ok := sched.Resume(w);
        receivers := receivers[1..];
        woken := woken + {w};
      }
    }

    method Receive(size: nat, timeout: int, entered: bool) returns (r: RecvOutcome)
      requires Core() && Looks() && sched.current !in phases && size != 0 && (entered <==> sched.current in woken)
      modifies this`queueHead, this`queueTail, this`entry, this`phases, this`places, this`taken, this`error,
               this`receivers, this`woken,
               sched`queues, sched`readyGroup, sched`readyTable, sched`tcb
      ensures Core() && sched.current == old(sched.current)
      ensures r == if old(Contents()) != [] then Taking else if timeout == 0 then Empty else RecvBlocked
      ensures r.Taking? ==>
                var t := sched.current;
                && old(places.queue != []) && places == Unlinked(old(places), t)
                && t in taken && old(Contents()) == [taken[t]] + Contents()
                && taken == old(taken)[t := old(Contents())[0]]
                && phases == old(phases)[t := Draining(old(places.queue[0]), Min(size, msgSize), [])]
      ensures !r.Taking? ==> places == old(places) && phases == old(phases) && taken == old(taken)
                             && Contents() == old(Contents())
      ensures !r.RecvBlocked? ==>
                People() == old(People()).(wokenReceivers := old(woken) - {sched.current})
                  && sched.State() == old(sched.State())
      ensures r.RecvBlocked? ==> People() == Mailbox.ReceiverBlocks(old(People()), old(sched.tcb), flag, sched.current)
                                 && sched.State() == old(Retired(sched.State(), sched.current, Suspended))
      ensures error == match r case Taking => old(error)
                               case Empty => if entered then old(error)[sched.current := Mailbox.ETIMEOUT]
                                 else old(error)
                               case RecvBlocked => old(error)[sched.current := Mailbox.EOK]
    {
      hide Partition, BytesOk, Chain, HoldersOk, Messages, EndsOk, CarriesOk, ReceiversOk, BitsOk, SysOk, Unlinked,
           Retired, Mailbox.Inside;
      var thread := sched.current;
      assert |Contents()| == entry;
      if entry == 0 {
        if timeout == 0 {
          QuitKeeps(sched.top, sched.State(), People(), error, thread);
          Quit(thread, entered);
          return Empty;
        }
        Wait();
        return RecvBlocked;
      }
      TakeKeeps(sched.top, sched.State(), People(), error, entry, thread);
      Unlink(thread, size);
      woken := woken - {thread};
      r := Taking;
    }

    /** The first region of rt_mq_recv, from its call or from its return out of rt_schedule with RT_EOK, to the copying,
        the next rt_schedule, or the return; `entered` says that the call has waited before. */
    method RecvStep(size: nat, timeout: int, entered: bool) returns (r: RecvOutcome)
      requires Valid() && Looks() && sched.current !in phases && size != 0 && (entered <==> sched.current in woken)
      modifies this`queueHead, this`queueTail, this`entry, this`phases, this`places, this`taken, this`error,
               this`receivers, this`woken, this`arrival, this`ticket,
               sched`queues, sched`readyGroup, sched`readyTable, sched`tcb
      ensures Valid() && sched.current == old(sched.current)
      ensures r == if old(Contents()) != [] then Taking else if timeout == 0 then Empty else RecvBlocked
      ensures r.Taking? ==>
                var t := sched.current;
                && old(places.queue != []) && places == Unlinked(old(places), t)
                && t in taken && old(Contents()) == [taken[t]] + Contents()
                && taken == old(taken)[t := old(Contents())[0]]
                && phases == old(phases)[t := Draining(old(places.queue[0]), Min(size, msgSize), [])]
      ensures !r.Taking? ==> places == old(places) && phases == old(phases) && taken == old(taken)
                             && Contents() == old(Contents())
      ensures !r.RecvBlocked? ==>
                People() == old(People()).(wokenReceivers := old(woken) - {sched.current})
                  && sched.State() == old(sched.State())
      ensures r.RecvBlocked? ==> People() == Mailbox.ReceiverBlocks(old(People()), old(sched.tcb), flag, sched.current)
                                 && sched.State() == old(Retired(sched.State(), sched.current, Suspended))
      ensures arrival == if r.RecvBlocked? then old(arrival)[sched.current := old(ticket)] else old(arrival)
      ensures ticket == if r.RecvBlocked? then old(ticket) + 1 else old(ticket)
    {
      hide *;
      ghost var s, c, e := sched.State(), People(), error;
      Facts();
      Names();
      r := Receive(size, timeout, entered);
      Names();
      ReceiveOrder(r, s, c, e, old(entry), flag, arrival, ticket, cause, sched.top, sched.State(), People(), error);
      Arrives(r.RecvBlocked?);
    }

    /** Note the time if the running thread has started to wait. */
    ghost method Arrives(waits: bool)
      requires Core() && Mailbox.CausesOk(expelled, cause, error)
      requires if waits then Mailbox.LinesOk(flag, People(), sched.tcb, arrival[sched.current := ticket], ticket + 1)
               else Mailbox.LinesOk(flag, People(), sched.tcb, arrival, ticket)
      modifies this`arrival, this`ticket
      ensures Valid()
      ensures arrival == if waits then old(arrival)[sched.current := old(ticket)] else old(arrival)
      ensures ticket == if waits then old(ticket) + 1 else old(ticket)
    {
      hide Mailbox.LinesOk, Mailbox.CausesOk, ReceiversOk, Partition, BytesOk, Chain, HoldersOk, EndsOk, CarriesOk,
           BitsOk,
           SysOk;
      if waits {
        arrival, ticket := arrival[sched.current := ticket], ticket + 1;
      }
    }

    /** Nothing there and no time: a thread that has waited gets the error in its control block as well. */
    method Quit(thread: Thread, entered: bool)
      requires entered <==> thread in woken
      modifies this`error, this`woken
      ensures woken == old(woken) - {thread}
      ensures error == if thread in old(woken) then old(error)[thread := Mailbox.ETIMEOUT] else old(error)
    {
      if entered {
        error := error[thread := Mailbox.ETIMEOUT];
      }
      woken := woken - {thread};
    }

    /** rt_ipc_list_suspend of the running thread. */
    method Wait()
      requires Waits() && Looks() && entry == 0
      modifies this`error, this`woken, this`receivers, sched`queues, sched`readyGroup, sched`readyTable, sched`tcb
      ensures Waits() && People() == Mailbox.ReceiverBlocks(old(People()), old(sched.tcb), flag, sched.current)
      ensures error == old(error)[sched.current := Mailbox.EOK]
      ensures sched.State() == old(Retired(sched.State(), sched.current, Suspended))
    {
      hide ReceiversOk, BitsOk, SysOk, Retired, Mailbox.Inside, PrioPosition;
      var thread := sched.current;
      WaitKeeps(sched.top, sched.State(), People(), error, flag);
      error := error[thread := Mailbox.EOK];
      woken := woken - {thread};
      var i := |receivers|;
      if flag == Prio {
        i := FindPosition(receivers, sched.tcb, sched.tcb[thread].priority);
      }
      assert receivers[..|receivers|] == receivers && receivers[|receivers|..] == [];
      assert receivers + [thread] == receivers + [thread] + [];
      receivers := Insert(receivers, i, thread);
      var ok := sched.Suspend(thread);
    }

    method SendAway(w: Thread, code: int)
      requires Waits() && w in receivers && (code == Mailbox.ETIMEOUT || code == Mailbox.ERROR)
      modifies this`receivers, this`expelled, this`error, sched`queues, sched`readyGroup, sched`readyTable, sched`tcb
      ensures Waits() && receivers == Minus(old(receivers), w) && |receivers| < |old(receivers)|
      ensures expelled == old(expelled) + {w} && error == old(error)[w := code]
      ensures old(w in sched.tcb) && sched.State() == Inserted(old(sched.State()), w)
    {
      hide ReceiversOk, BitsOk, SysOk, Inserted, Minus, AttributesOk;
      ExpelledKeeps(sched.top, sched.State(), People(), error, entry, w, code);
      error := error[w := code];
      receivers := Minus(receivers, w);
      sched.InsertThread(w);
      expelled := expelled + {w};
    }

    /** rt_thread_timeout for a waiter, or one round of rt_ipc_list_resume_all, up to the next rt_schedule. */
    method Expel(w: Thread, why: Mailbox.Cause)
      requires Waits() && Order() && w in receivers
      modifies this`receivers, this`expelled, this`error, this`cause, sched`queues, sched`readyGroup, sched`readyTable,
               sched`tcb
      ensures Waits() && Order() && receivers == Minus(old(receivers), w) && |receivers| < |old(receivers)|
      ensures expelled == old(expelled) + {w} && error == old(error)[w := Mailbox.CodeOf(why)]
      ensures cause == old(cause)[w := why]
      ensures old(w in sched.tcb) && sched.State() == Inserted(old(sched.State()), w)
    {
      hide *;
      ghost var s, c, e := sched.State(), People(), error;
      OrderFacts();
      Names();
      Mailbox.CodeKnown(why);
      SendAway(w, Mailbox.CodeOf(why));
      Names();
      ExpelOrder(s, c, e, flag, arrival, ticket, cause, w, why);
      NoteCause(w, why);
    }

    ghost method NoteCause(w: Thread, why: Mailbox.Cause)
      requires Waits() && Mailbox.LinesOk(flag, People(), sched.tcb, arrival, ticket)
      requires Mailbox.CausesOk(expelled, cause[w := why], error)
      modifies this`cause
      ensures Waits() && Order() && cause == old(cause)[w := why]
    {
      hide Mailbox.LinesOk, Mailbox.CausesOk, ReceiversOk, BitsOk, SysOk;
      cause := cause[w := why];
    }

    lemma OrderFacts()
      requires Order()
      ensures Mailbox.LinesOk(flag, People(), sched.tcb, arrival, ticket) && Mailbox.CausesOk(expelled, cause, error)
    {
    }

    lemma WaitsFacts()
      requires Waits()
      ensures ReceiversOk(sched.top, sched.State(), People(), error, entry)
    {
    }

    /** rt_mq_control with RT_IPC_CMD_RESET, up to its rt_schedule: all waiters leave with an error, the queue is
        emptied. */
    method Reset()
      requires Valid()
      modifies this`next, this`queueHead, this`queueTail, this`freeHead, this`entry, this`places, this`receivers,
               this`expelled, this`cause,
               this`error, sched`queues, sched`readyGroup, sched`readyTable, sched`tcb
      ensures Valid() && Contents() == [] && places.holder == old(places.holder) && receivers == []
      ensures expelled == old(expelled) + set t | t in old(receivers)
      ensures Mailbox.AllReset(old(receivers), old(cause), cause)
      ensures sched.State() == Resumed(old(sched.State()), old(receivers))
    {
      hide Partition, BytesOk, Chain, HoldersOk, EndsOk, CarriesOk, ReceiversOk, BitsOk, SysOk, Resumed,
           Mailbox.LinesOk,
           Mailbox.CausesOk, Mailbox.AllReset;
      ExpelAll();
      EmptiedKeeps(sched.top, sched.State(), People(), error, entry);
      Drain();
    }

    method ExpelAll()
      requires Waits() && Order()
      modifies this`receivers, this`expelled, this`error, this`cause, sched`queues, sched`readyGroup, sched`readyTable,
               sched`tcb
      ensures Waits() && Order() && receivers == []
      ensures expelled == old(expelled) + set t | t in old(receivers)
      ensures Mailbox.AllReset(old(receivers), old(cause), cause)
      ensures sched.State() == Resumed(old(sched.State()), old(receivers))
    {
      hide *;
      ghost var done: seq<Thread> := [];
      NobodyResumed(old(sched.State()));
      Mailbox.ResetNone(cause);
      while receivers != []
        invariant Waits() && Order()
        invariant expelled == old(expelled) + set t | t in done
        invariant old(receivers) == done + receivers && sched.State() == Resumed(old(sched.State()), done)
        invariant Mailbox.AllReset(done, old(cause), cause)
        decreases |receivers|
      {
        var w := receivers[0];
        ghost var rest, before := receivers, cause;
        WaitsFacts();
        Names();
        FirstOff(sched.top, sched.State(), People(), error, entry);
        Expel(w, Mailbox.WasReset);
        ResumedNext(old(sched.State()), done, w);
        OneMore(done, rest, w);
        Mailbox.ResetMore(done, w, old(cause), before);
        done := done + [w];
      }
      assert done + [] == done;
    }

    /** The return of a call that waited in vain. */
    method Fail() returns (code: int)
      requires Valid() && sched.current in expelled
      modifies this`expelled
      ensures Valid() && expelled == old(expelled) - {sched.current}
      ensures sched.current in cause
              && code == match cause[sched.current] case TimedOut => Mailbox.ETIMEOUT case WasReset => Mailbox.ERROR
    {
      hide Partition, BytesOk, Chain, HoldersOk, EndsOk, CarriesOk, ReceiversOk, BitsOk, SysOk, InLine;
      FailKeeps(sched.top, sched.State(), People(), error, entry, sched.current);
      code := error[sched.current];
      expelled := expelled - {sched.current};
    }

    /** Between two steps, a thread that is not inside rt_mq_recv is created, started, resumed, suspended, given another
        priority, or exits. */
    method Otherwise(m: Others.Move)
      requires Valid() && Others.Allowed(sched.top, sched.State(), m) && !Mailbox.Inside(People(), m.thread)
      modifies sched`queues, sched`readyGroup, sched`readyTable, sched`tcb, sched`current
      ensures Valid() && Contents() == old(Contents())
      ensures old(sched.Valid() && Others.Allowed(sched.top, sched.State(), m))
              && Others.Moved(sched.top, sched.lockNest, old(sched.State()), m, sched.State())
    {
      hide Partition, BytesOk, Chain, HoldersOk, EndsOk, CarriesOk, ReceiversOk, BitsOk, SysOk, Mailbox.Inside,
           Mailbox.LinesOk, Mailbox.CausesOk, Others.Moved, Others.Allowed, Others.Undisturbed;
      ghost var s := sched.State();
      Others.Perform(sched, m);
      OthersKeep(sched.top, s, sched.State(), m.thread, People(), error, entry);
      Mailbox.OthersLines(s, sched.State(), m.thread, flag, People(), arrival, ticket);
    }

    /** rt_schedule. */
    method Reschedule()
      requires Valid() && sched.current != 0
      modifies sched`queues, sched`readyGroup, sched`readyTable, sched`tcb, sched`current
      ensures Valid() && Contents() == old(Contents())
              && (sched.lockNest == 0 && !Idle(old(sched.queues)) ==> TopRuns(sched.State()))
      ensures if sched.lockNest == 0 then Chosen(old(sched.State()), sched.State())
              else sched.State() == old(sched.State())
    {
      hide Partition, BytesOk, Chain, HoldersOk, EndsOk, CarriesOk, ReceiversOk, BitsOk, SysOk, TopRuns, Scheduled,
           Chosen, IsFirst, Idle, Mailbox.LinesOk, Mailbox.CausesOk;
      ghost var s := sched.State();
      var h := sched.Schedule();
      if sched.lockNest == 0 && !Idle(s.queues) {
        FirstSome(s.queues, h);
        ChosenBy(s, sched.State(), h);
        TurnKeeps(sched.top, s, h, People(), error, entry);
        TurnOrder(sched.top, s, h, flag, People(), error, entry, arrival, ticket);
      } else if sched.lockNest == 0 {
        IdleChosen(s);
      }
    }

    lemma QueuedApart()
      requires Slots() && places.queue != []
      ensures forall t {:trigger t in phases} :: t in phases ==> phases[t].slot != places.queue[0]
    {
      forall t | t in phases ensures phases[t].slot != places.queue[0] {
        QueuedNotHeld(maxMsgs, places, phases[t].slot, places.queue[0]);
      }
    }
  }

  lemma FirstOff(top: int, s: Sys, c: Mailbox.Crowd, error: map<Thread, int>, entry: int)
    requires ReceiversOk(top, s, c, error, entry) && c.receivers != []
    ensures Minus(c.receivers, c.receivers[0]) == c.receivers[1..]
  {
    hide SysOk;
    MinusHead(c.receivers);
  }

  lemma PoolHolds(n: nat, w: nat, max: nat)
    requires w > 0 && max == n / w % 65536
    ensures max * w <= n
  {
    assert max <= n / w;
    assert max * w <= (n / w) * w;
  }

  lemma ChainDistinct(next: Links, head: int, q: seq<int>)
    requires Chain(next, head, q)
    ensures NoRepeats(q)
  {
  }

  /** Slot numbers are never NULL. */
  lemma ChainNull(next: Links, head: int, q: seq<int>, max: nat, p: Places)
    requires Chain(next, head, q) && Partition(max, p) && forall k {:trigger k in q} :: k in q ==> k in p.queue
    ensures (head == NULL <==> q == []) && (Last(q) == NULL <==> q == [])
  {
    if q != [] {
      assert q[0] in q && Last(q) in q;
      assert Placed(max, p, q[0]) && Placed(max, p, Last(q));
    }
  }

  lemma FreeNull(next: Links, head: int, max: nat, p: Places)
    requires Chain(next, head, p.free) && Partition(max, p)
    ensures head == NULL <==> p.free == []
  {
    if p.free != [] {
      assert Placed(max, p, p.free[0]);
    }
  }

  lemma LastApart(max: nat, p: Places, phases: Phases)
    requires Partition(max, p) && HoldersOk(p, phases)
    ensures p.queue != [] ==> Last(p.queue) !in p.free
    ensures forall t {:trigger t in phases} :: t in phases ==> phases[t].slot != Last(p.queue)
  {
    if p.queue != [] {
      assert Last(p.queue) in p.queue;
      assert Placed(max, p, Last(p.queue));
    }
    forall t | t in phases ensures phases[t].slot != Last(p.queue) {
      assert Placed(max, p, phases[t].slot);
    }
  }

  lemma TerminatedEnd(next: Links, phases: Phases, t: int)
    requires EndsOk(next, phases) && t in phases && phases[t].Filling? && phases[t].terminated
    ensures phases[t].slot in next && next[phases[t].slot] == NULL
  {
  }

  lemma DrainStart(pool: seq<byte>, size: nat, max: nat, message: map<int, seq<byte>>, k: int, want: nat)
    requires Intact(pool, size, max, message, k) && want <= size
    ensures PhaseOk(pool, size, max, message, Draining(k, want, []))
  {
  }

  lemma SamePhase(pool: seq<byte>, size: nat, max: nat, message: map<int, seq<byte>>, h: Phase, h': Phase)
    requires PhaseOk(pool, size, max, message, h) && h.Filling? && h' == h.(terminated := true)
    ensures PhaseOk(pool, size, max, message, h')
  {
  }

  lemma Delivered(pool: seq<byte>, size: nat, max: nat, message: map<int, seq<byte>>, h: Phase)
    requires PhaseOk(pool, size, max, message, h) && h.Draining?
    ensures h.slot in message
    ensures forall i {:trigger h.got[i]} :: 0 <= i < |h.got| && i < |message[h.slot]| ==> h.got[i] == message[h.slot][i]
  {
    var r := Payload(pool, size, max, h.slot);
    var m := message[h.slot];
    forall i {:trigger h.got[i]} | 0 <= i < |h.got| && i < |m| ensures h.got[i] == m[i] {
      assert h.got[i] == r[i] && m[i] == r[i];
    }
  }
}
