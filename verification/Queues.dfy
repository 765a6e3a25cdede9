/** A queue as an object: three heaps over shared message objects, a lease table,
    a dead letter list and counters (queue/queue.go). Every method performs steps
    of the state machine in module Model and records them in a ghost run. */
module Queues {
  import opened Msgs
  import opened HeapOrder
  import opened Heaps
  import opened Recovery
  import opened Model
  import opened Wal
  import opened Partition
  import opened Agreement
  import opened Restarts
  import opened Sequences
  import Pump
  import Wakeups
  import opened Outcomes
  import opened Selection
  import opened DeadLetters

  datatype Status = Done | NoLease | LogError | PriorityDisabled

  lemma AlikeDurable(a: Disk, c: Disk, rec: Record, o: Outcome)
    requires a.latched == c.latched && Possible(a, o)
    ensures Alike(a, a.Durable(rec, o), c, c.Durable(rec, o))
  {
  }

  lemma CaughtUp(before: Disk, a: Disk, c: Disk, rec: Record, o: Outcome)
    requires a == before.(latched := c.latched) && Possible(a, o)
    ensures Alike(before, a.Durable(rec, o), c, c.Durable(rec, o))
  {
  }

  /** A receipt in the lease table can be used, and no other leads to its message. */
  lemma LeaseFacts(s: State, receipt: Id)
    requires Inv(s) && receipt in s.mem.leases
    ensures Leases(s.mem, receipt)
    ensures var id := s.mem.leases[receipt];
            && s.mem.inflight[id].id == id && s.mem.inflight[id].receipt == receipt
            && id !in s.mem.ready && id !in s.mem.delayed
    ensures forall r :: r in s.mem.leases && r != receipt ==> s.mem.leases[r] != s.mem.leases[receipt]
  {
    hide Known;
  }

  lemma CanAck(s: State, receipt: Id, o: Outcome)
    requires Leases(s.mem, receipt) && Possible(s.disk, o)
    ensures Enabled(s, Ack(receipt, o))
  {
  }

  lemma AckEffect(s: State, receipt: Id, o: Outcome)
    requires Inv(s) && Enabled(s, Ack(receipt, o))
    ensures var id := s.mem.leases[receipt];
            && Step(s, Ack(receipt, o)).mem ==
               (if o == Ok then
                  s.mem.(inflight := s.mem.inflight - {id}, leases := s.mem.leases - {receipt},
                         acked := s.mem.acked + 1)
                else s.mem)
            && Step(s, Ack(receipt, o)).disk == s.disk.Durable(AckRecord(s.mem.cfg.name, id), o)
  {
    hide Known;
  }

  lemma ExtendEffect(s: State, receipt: Id, expiry: Time)
    requires Inv(s) && receipt in s.mem.leases
    ensures Enabled(s, Extend(receipt, expiry))
    ensures var id := s.mem.leases[receipt];
            && id in s.mem.inflight
            && Step(s, Extend(receipt, expiry)) ==
               s.(mem := s.mem.(inflight := s.mem.inflight[id := s.mem.inflight[id].(leaseExpiry := expiry)]))
  {
    LeaseFacts(s, receipt);
    hide Inv;
  }

  lemma PromoteEffect(s: State, id: Id, now: Time)
    requires Inv(s) && id in s.mem.delayed && s.mem.delayed[id].visibleAt <= now <= s.clock
    ensures Enabled(s, Promote(id, now))
    ensures Step(s, Promote(id, now)) ==
            s.(mem := s.mem.(delayed := s.mem.delayed - {id}, ready := s.mem.ready[id := s.mem.delayed[id]],
                             owed := true))
    ensures id !in s.mem.ready && id !in s.mem.inflight && s.mem.delayed[id].id == id
  {
    hide Known, LeaseBijection;
  }

  /** The state in which a message has lost its lease and awaits Retry. */
  ghost function Ended(s: State, id: Id, expiry: bool): State
    requires id in s.mem.inflight
  {
    var mem := EndLease(s.mem, s.mem.inflight[id]);
    s.(mem := if expiry then mem.(expired := s.mem.expired + 1) else mem.(nacked := s.mem.nacked + 1))
  }

  lemma ExpireEffect(s: State, id: Id, now: Time, o: Outcome)
    requires id in s.mem.inflight && s.mem.inflight[id].leaseExpiry <= now <= s.clock && Possible(s.disk, o)
    ensures Enabled(s, Expire(id, now, o))
    ensures Step(s, Expire(id, now, o)) == Retry(Ended(s, id, true), s.mem.inflight[id].Unleased(), now, 0, o)
  {
    hide Retry, EndLease;
  }

  lemma NackEffect(s: State, receipt: Id, delay: int, o: Outcome)
    requires Leases(s.mem, receipt) && Possible(s.disk, o)
    ensures Enabled(s, Nack(receipt, delay, o))
    ensures var id := s.mem.leases[receipt];
            Step(s, Nack(receipt, delay, o)) ==
            Retry(Ended(s, id, false), s.mem.inflight[id].Unleased(), s.clock, delay, o)
  {
    hide Retry, EndLease;
  }

  lemma RetryLatch(s: State, m: Msg, now: Time, delay: int, o: Outcome)
    ensures Retry(s, m, now, delay, o).disk == s.disk.Durable(RetryRecord(s.mem.cfg, m, now, delay), o)
  {
    hide Place;
  }

  lemma InflightFacts(s: State, id: Id)
    requires Inv(s) && id in s.mem.inflight
    ensures var r := s.mem.inflight[id].receipt; r in s.mem.leases && s.mem.leases[r] == id
    ensures s.mem.inflight[id].id == id
  {
    hide Known;
  }

  /** What an operation first learns: another queue's latch, and the time. */
  ghost function Prelude(failed: bool, latched: bool, now: Time): seq<Event> {
    (if failed && !latched then [OtherLatch] else []) + [Clock(now)]
  }

  /** n dead letters replayed. */
  ghost function Heads(n: nat): seq<Event> {
    seq(n, i => ReplayHead(Ok))
  }

  lemma HeadsMore(n: nat)
    ensures Heads(0) == [] && Heads(n + 1) == Heads(n) + [ReplayHead(Ok)]
  {
  }

  lemma AlikeLatched(a: Disk, b: Disk, c: Disk, d: Disk, latch: bool)
    requires Alike(a.(latched := latch), b, c, d)
    ensures Alike(a, b, c, d)
  {
  }

  lemma NackLogs(s: State, receipt: Id, delay: int, o: Outcome)
    requires Enabled(s, Nack(receipt, delay, o))
    ensures Leases(s.mem, receipt) && Possible(s.disk, o)
    ensures Step(s, Nack(receipt, delay, o)).disk ==
            s.disk.Durable(RetryRecord(s.mem.cfg, s.mem.inflight[s.mem.leases[receipt]].Unleased(), s.clock, delay), o)
  {
    hide Retry, RetryRecord;
    var id := s.mem.leases[receipt];
    NackEffect(s, receipt, delay, o);
    RetryLatch(Ended(s, id, false), s.mem.inflight[id].Unleased(), s.clock, delay, o);
  }

  lemma EnqueueEffect(s: State, e: Event)
    requires Inv(s) && e.Enqueue? && e.id !in s.book.used && e.id != NO_RECEIPT && Possible(s.disk, e.o)
    requires e.priority == 0 || s.mem.cfg.priority
    ensures Enabled(s, e)
    ensures var m, mem := NewMsg(s, e), s.mem.(seqNo := s.mem.seqNo + 1);
            && Step(s, e).mem == (if e.o == Ok then Place(mem, m, s.clock).(enqueued := mem.enqueued + 1) else mem)
            && Step(s, e).disk == s.disk.Durable(EnqueueRecord(s.mem.cfg.name, m), e.o)
            && Step(s, e).book.used == s.book.used + {e.id} && Step(s, e).clock == s.clock
    ensures e.id !in s.mem.ready && e.id !in s.mem.delayed && e.id !in s.mem.inflight
  {
    hide Places, LeaseBijection, EnqueuesOnly, IdsOf, Place;
  }

  /** The run grew by pump steps of time now, and signals. */
  ghost predicate Pumped(before: seq<Event>, after: seq<Event>, now: Time) {
    && before <= after
    && forall i :: |before| <= i < |after| ==>
         ((after[i].Promote? || after[i].Expire?) && after[i].now == now) || after[i].Signal?
  }

  /** Every expiry that this stretch of the run performs is logged. */
  ghost predicate ExpiriesLogged(before: seq<Event>, after: seq<Event>) {
    forall i :: |before| <= i < |after| && after[i].Expire? ==> after[i].o == Ok
  }

  lemma PumpedStart(run: seq<Event>, now: Time)
    ensures Pumped(run, run, now) && ExpiriesLogged(run, run)
  {
  }

  lemma PumpedMore(before: seq<Event>, run: seq<Event>, e: Event, now: Time)
    requires Pumped(before, run, now) && (((e.Promote? || e.Expire?) && e.now == now) || e.Signal?)
    ensures Pumped(before, run + [e], now)
    ensures ExpiriesLogged(before, run + [e]) <==> ExpiriesLogged(before, run) && (e.Expire? ==> e.o == Ok)
  {
    assert forall i :: 0 <= i < |run| ==> (run + [e])[i] == run[i];
    assert (run + [e])[|run|] == e;
  }

  lemma AlikeStart(a: Disk, c: Disk)
    requires a.latched == c.latched
    ensures Alike(a, a, c, c)
  {
  }

  lemma AlikeLazy(a: Disk, c: Disk, recs: seq<Record>)
    requires a.latched == c.latched
    ensures Alike(a, a.(log := a.log + recs), c, c.(log := c.log + recs))
  {
  }

  lemma AlikeMore(a: Disk, b: Disk, c: Disk, d: Disk, rec: Record, o: Outcome)
    requires Alike(a, b, c, d) && Possible(b, o)
    ensures Alike(a, b.Durable(rec, o), c, d.Durable(rec, o))
  {
    assert o == Ok ==> (b.log + [rec])[|a.log|..] == b.log[|a.log|..] + [rec];
    assert o == Ok ==> (d.log + [rec])[|c.log|..] == d.log[|c.log|..] + [rec];
  }

  lemma PreludeExpiresNothing(a: seq<Event>, b: seq<Event>, c: seq<Event>, failed: bool, latched: bool,
                              clock: Time, now: Time)
    requires b == a + Prelude(failed, latched, clock) && Pumped(b, c, now)
    ensures ExpiriesLogged(a, c) <==> ExpiriesLogged(b, c)
  {
  }

  lemma NoExpiries(a: seq<Event>, b: seq<Event>, c: seq<Event>, now: Time)
    requires Pumped(a, b, now) && Pumped(b, c, now) && forall i :: |a| <= i < |b| ==> !b[i].Expire?
    ensures ExpiriesLogged(a, c) <==> ExpiriesLogged(b, c)
  {
  }

  lemma PumpedThen(a: seq<Event>, b: seq<Event>, c: seq<Event>, now: Time)
    requires Pumped(a, b, now) && Pumped(b, c, now)
    ensures Pumped(a, c, now)
  {
  }

  /** The run grew by leases given out, or by leases rolled back. */
  ghost predicate HandedOut(before: seq<Event>, after: seq<Event>) {
    before <= after && forall i :: |before| <= i < |after| ==> after[i].Lease? || after[i].RollBack?
  }

  /** A signal moves no message. */
  lemma SignalIsNoMove(m0: Memory, m: Memory, now: Time)
    requires Pump.Scanned(m0, m, now)
    ensures Pump.Scanned(m0, m.(wake := m.wake + 1, owed := false), now)
  {
  }

  ghost function Names(out: seq<MsgRef>): set<Id> {
    set m | m in out :: m.id
  }

  lemma NamesAppend(out: seq<MsgRef>, m: MsgRef)
    ensures Names(out + [m]) == Names(out) + {m.id}
  {
    assert forall x :: x in out + [m] <==> x in out || x == m;
  }

  lemma BackInPlace(m: map<Id, Msg>, id: Id, ids: set<Id>)
    requires id in m && id !in ids
    ensures (m - (ids + {id}))[id := m[id]] == m - ids
  {
  }

  lemma RestUnnamed(out: seq<MsgRef>)
    requires out != [] && forall i, j :: 0 <= i < j < |out| ==> out[i].id != out[j].id
    ensures out[0].id !in Names(out[1..])
  {
  }

  lemma NamesAre(out: seq<MsgRef>, vals: seq<Msg>)
    requires |out| == |vals| && forall i :: 0 <= i < |out| ==> out[i].id == vals[i].id
    ensures Names(out) == IdsOf(vals)
  {
    forall i | 0 <= i < |out|
      ensures out[i].id in IdsOf(vals) && vals[i].id in Names(out)
    {
      assert out[i] in out && vals[i] in vals;
    }
  }

  lemma AlikeThen(a: Disk, b: Disk, b': Disk, c: Disk, d: Disk, d': Disk, latch: bool)
    requires Alike(a.(latched := latch), b, c, d) && Alike(b, b', d, d')
    ensures Alike(a, b', c, d')
  {
    assert b'.log[|a.log|..] == b.log[|a.log|..] + b'.log[|b.log|..];
    assert d'.log[|c.log|..] == d.log[|c.log|..] + d'.log[|d.log|..];
  }

  /** keys list the view of a heap, each message once. */
  ghost predicate Listed(keys: seq<Msg>, view: map<Id, Msg>) {
    && DistinctIds(keys)
    && (forall m :: m in keys ==> m.id in view && view[m.id] == m)
    && (forall id :: id in view ==> view[id] in keys)
  }

  lemma HeapLists(h: MsgHeap)
    requires h.Valid()
    ensures Listed(h.keys, h.view)
  {
    forall i, j | 0 <= i < j < |h.keys|
      ensures h.keys[i].id != h.keys[j].id
    {
      assert h.items[i] != h.items[j];
    }
    forall id | id in h.view
      ensures h.view[id] in h.keys
    {
      assert h.keys[h.byId[id].index] == h.view[id];
    }
  }

  lemma HeapValues(h: MsgHeap)
    requires h.Valid()
    ensures ValuesOf(h.items, h.keys)
  {
  }

  lemma ListsThree(a: seq<Msg>, b: seq<Msg>, c: seq<Msg>, mem: Memory)
    requires Places(mem) && Listed(a, mem.ready) && Listed(b, mem.delayed) && Listed(c, mem.inflight)
    ensures Lists(a + b + c, mem.ready, mem.delayed, mem.inflight)
  {
    var all := a + b + c;
    assert forall m :: m in all <==> m in a || m in b || m in c;
    forall i, j | 0 <= i < j < |all|
      ensures all[i].id != all[j].id
    {
      assert i < |a| ==> all[i] in a;
      assert |a| <= i < |a| + |b| ==> all[i] == b[i - |a|];
      assert |a| + |b| <= i ==> all[i] == c[i - |a| - |b|];
      assert j < |a| ==> all[j] in a;
      assert |a| <= j < |a| + |b| ==> all[j] == b[j - |a|];
      assert |a| + |b| <= j ==> all[j] == c[j - |a| - |b|];
    }
  }

  lemma SoundHasConfig(r: Staging, clock: Time)
    requires Sound(r, clock)
    ensures r.cfg.Some?
  {
  }

  lemma InvPlaces(s: State)
    requires Inv(s)
    ensures Places(s.mem)
  {
  }

  lemma RetryNow(s: State, m: Msg, now: Time, o: Outcome)
    ensures var t := Retry(s, m, now, 0, o);
            t.mem.delayed == s.mem.delayed
  {
  }

  /** What an expiry changes, whatever becomes of its record. */
  lemma ExpireFrame(s: State, id: Id, now: Time, o: Outcome)
    requires Inv(s) && Enabled(s, Expire(id, now, o))
    ensures var t := Step(s, Expire(id, now, o));
            && t.clock == s.clock && t.mem.inflight == s.mem.inflight - {id} && |t.mem.inflight| < |s.mem.inflight|
            && t.mem.delayed == s.mem.delayed && t.mem.wake == s.mem.wake
            && t.disk == s.disk.Durable(RetryRecord(s.mem.cfg, s.mem.inflight[id].Unleased(), now, 0), o)
            && t.book.used == s.book.used && Possible(s.disk, o)
  {
    hide RetryRecord, Retry, Step, Inv;
    var st, m := Ended(s, id, true), s.mem.inflight[id].Unleased();
    ExpireEffect(s, id, now, o);
    RetryLatch(st, m, now, 0, o);
    RetryFrame(st, m, now, 0, o);
    RetryNow(st, m, now, o);
    InflightFacts(s, id);
    assert (s.mem.inflight - {id}).Keys == s.mem.inflight.Keys - {id};
  }

  lemma LeaseEffect(s: State, id: Id, receipt: Id, expiry: Time)
    requires id in s.mem.ready && receipt !in s.book.used && receipt != NO_RECEIPT && !s.disk.latched
    ensures Enabled(s, Lease(id, receipt, expiry)) && Enabled(s, RollBack(id, receipt, expiry))
    ensures var m := s.mem.ready[id].Leased(receipt, expiry);
            var rec := LeaseRecord(s.mem.cfg.name, m);
            && Step(s, Lease(id, receipt, expiry)) ==
               s.(mem := s.mem.(ready := s.mem.ready - {id}, inflight := s.mem.inflight[id := m],
                                leases := s.mem.leases[receipt := id], delivered := s.mem.delivered + 1),
                  disk := s.disk.Lazy(rec), book := s.book.(used := s.book.used + {receipt}))
            && Step(s, RollBack(id, receipt, expiry)) ==
               s.(disk := s.disk.Lazy(rec), book := s.book.(used := s.book.used + {receipt}, faulty := true))
  {
  }

  lemma NamesTail(out: seq<MsgRef>)
    requires out != []
    ensures Names(out) == Names(out[1..]) + {out[0].id}
  {
    assert out == [out[0]] + out[1..];
    assert forall x :: x in out <==> x == out[0] || x in out[1..];
  }

  lemma LessAndLess(m: map<Id, Msg>, id: Id, ids: set<Id>)
    ensures m - {id} - ids == m - (ids + {id})
  {
  }

  /** Distinct generated receipts, none handed out before. */
  ghost predicate NewReceipts(receipts: seq<Id>, used: set<Id>) {
    && (forall i :: 0 <= i < |receipts| ==> receipts[i] !in used && receipts[i] != NO_RECEIPT)
    && (forall i, j :: 0 <= i < j < |receipts| ==> receipts[i] != receipts[j])
  }

  /** The lease records of a batch. */
  ghost function LeaseRecords(name: string, vals: seq<Msg>, receipts: seq<Id>, expiry: Time): (recs: seq<Record>)
    requires |vals| <= |receipts|
    ensures |recs| == |vals|
  {
    if vals == [] then [] else
      var n := |vals| - 1;
      LeaseRecords(name, vals[..n], receipts, expiry) + [LeaseRecord(name, vals[n].Leased(receipts[n], expiry))]
  }

  lemma OneMoreLease(name: string, vals: seq<Msg>, receipts: seq<Id>, expiry: Time, i: nat)
    requires i < |vals| <= |receipts|
    ensures LeaseRecords(name, vals[..i + 1], receipts, expiry) ==
            LeaseRecords(name, vals[..i], receipts, expiry) + [LeaseRecord(name, vals[i].Leased(receipts[i], expiry))]
  {
    assert vals[..i + 1][..i] == vals[..i];
  }

  lemma ReplayEffect(s: State, o: Outcome)
    requires Inv(s) && s.mem.dlq != [] && Possible(s.disk, o)
    ensures Enabled(s, ReplayHead(o))
    ensures var m := s.mem.dlq[0];
            && m.id !in s.mem.ready && m.id !in s.mem.delayed && m.id !in s.mem.inflight
            && Step(s, ReplayHead(o)).disk == s.disk.Durable(ReplayRecord(s.mem.cfg.name, m.id), o)
            && Step(s, ReplayHead(o)).mem ==
               (if o == Ok then Place(s.mem.(dlq := s.mem.dlq[1..]), m.(attempts := 0, visibleAt := s.clock), s.clock)
                else s.mem)
            && Step(s, ReplayHead(o)).clock == s.clock
  {
    assert s.mem.dlq[0] in s.mem.dlq;
    hide Known, LeaseBijection, Place;
  }

  /** The values of the messages behind these references. */
  ghost predicate ValuesOf(items: seq<MsgRef>, vals: seq<Msg>)
    reads items
  {
    |items| == |vals| && forall i :: 0 <= i < |items| ==> items[i].msg == vals[i]
  }

  /** Print one enqueue record per message, after the records already printed. */
  method EmitItems(name: string, items: seq<MsgRef>, out0: seq<Record>,
                   ghost order: seq<Msg>, ghost vals: seq<Msg>, ghost head: seq<Record>)
    returns (out: seq<Record>)
    requires ValuesOf(items, vals) && out0 == head + Emit(name, order)
    ensures out == head + Emit(name, order + vals)
  {
    out := out0;
    assert order + vals[..0] == order;
    for i := 0 to |items|
      invariant out == head + Emit(name, order + vals[..i])
    {
      assert order + vals[..i + 1] == order + vals[..i] + [vals[i]];
      EmitOne(name, order + vals[..i], vals[i]);
      out := out + [EnqueueRecord(name, items[i].msg.Unleased())];
    }
    assert vals[..|items|] == vals;
  }

  lemma EmitNone(name: string)
    ensures Emit(name, []) == []
  {
  }

  lemma EmitOne(name: string, order: seq<Msg>, m: Msg)
    ensures Emit(name, order + [m]) == Emit(name, order) + [EnqueueRecord(name, m.Unleased())]
    ensures EmitDead(name, order + [m]) ==
            EmitDead(name, order) + [EnqueueRecord(name, m.Unleased()), DeadRecord(name, m.id)]
  {
    assert (order + [m])[..|order|] == order;
  }

  // ---------- what restore is given ----------

  ghost function Wiped(ms: seq<Msg>): seq<Msg> {
    seq(|ms|, i requires 0 <= i < |ms| => ms[i].Unleased())
  }

  /** live lists, each once, the messages of r that are not dead letters. */
  ghost predicate LiveList(r: Staging, live: seq<Msg>) {
    && DistinctIds(live)
    && (forall m :: m in live ==> m.id in r.live && m.id !in r.dlq && m == r.live[m.id])
    && (forall id :: id in r.live && id !in r.dlq ==> r.live[id] in live)
  }

  /** dead lists the dead letters of r in sequence order. */
  ghost predicate DeadList(r: Staging, dead: seq<Msg>) {
    && (forall i, j :: 0 <= i < j < |dead| ==> dead[i].seqNo < dead[j].seqNo)
    && (forall m :: m in dead ==> m.id in r.live && m.id in r.dlq && m == r.live[m.id])
    && (forall id :: id in r.live && id in r.dlq ==> r.live[id] in dead)
  }

  lemma DeadListIsDead(r: Staging, dead: seq<Msg>)
    requires DeadList(r, dead) && Keyed(r.live)
    ensures IsDead(r, Wiped(dead))
  {
    var wiped := Wiped(dead);
    forall m | m in wiped
      ensures m.id in r.live && m.id in r.dlq && m == r.live[m.id].Unleased()
    {
      var i :| 0 <= i < |wiped| && wiped[i] == m;
      assert dead[i] in dead;
    }
    forall id | id in r.live && id in r.dlq
      ensures r.live[id].Unleased() in wiped
    {
      var i :| 0 <= i < |dead| && dead[i] == r.live[id];
      assert wiped[i] == r.live[id].Unleased();
    }
  }

  /** The messages of live that a delay gate open at now lets into ready, or keeps. */
  ghost function Filed(live: seq<Msg>, now: Time, open: bool): map<Id, Msg> {
    if live == [] then map[] else
      var m, rest := live[|live| - 1], Filed(live[..|live| - 1], now, open);
      if m.Ready(now) == open then rest[m.id := m.Unleased()] else rest
  }

  lemma {:induction false} FiledHas(live: seq<Msg>, now: Time, open: bool, id: Id)
    requires DistinctIds(live)
    ensures id in Filed(live, now, open) <==> exists m :: m in live && m.id == id && m.Ready(now) == open
    ensures forall m :: m in live && m.id == id && m.Ready(now) == open ==> Filed(live, now, open)[id] == m.Unleased()
  {
    if live != [] {
      var front, last := live[..|live| - 1], live[|live| - 1];
      SplitLast(live);
      FiledHas(front, now, open, id);
      assert forall m :: m in live <==> m in front || m == last;
      if last.id == id {
        assert forall m :: m in front ==> m.id in IdsOf(front);
      }
    }
  }

  lemma FileOneMore(live: seq<Msg>, i: nat, now: Time)
    requires i < |live| && DistinctIds(live)
    ensures live[i].id !in Filed(live[..i], now, true) && live[i].id !in Filed(live[..i], now, false)
    ensures forall open :: Filed(live[..i + 1], now, open) ==
              if live[i].Ready(now) == open then Filed(live[..i], now, open)[live[i].id := live[i].Unleased()]
              else Filed(live[..i], now, open)
  {
    assert live[..i + 1][..i] == live[..i];
    FiledHas(live[..i], now, true, live[i].id);
    FiledHas(live[..i], now, false, live[i].id);
  }

  lemma FiledIsRestored(r: Staging, live: seq<Msg>, dead: seq<Msg>, now: Time)
    requires LiveList(r, live) && r.cfg.Some? && Keyed(r.live)
    ensures Filed(live, now, true) == Restored(r, dead, now).ready
    ensures Filed(live, now, false) == Restored(r, dead, now).delayed
  {
    forall id
      ensures id in Filed(live, now, true) <==> id in Restored(r, dead, now).ready
      ensures id in Filed(live, now, false) <==> id in Restored(r, dead, now).delayed
      ensures id in Filed(live, now, true) ==> Filed(live, now, true)[id] == Restored(r, dead, now).ready[id]
      ensures id in Filed(live, now, false) ==> Filed(live, now, false)[id] == Restored(r, dead, now).delayed[id]
    {
      FiledHas(live, now, true, id);
      FiledHas(live, now, false, id);
    }
  }

  class Queue {
    const cfg: Config
    const wal: WAL
    const ready: MsgHeap
    const delayed: MsgHeap
    const inflight: MsgHeap
    var seqNo: nat
    var leases: map<Id, MsgRef>
    var dlq: seq<MsgRef>
    var enqueued: nat
    var delivered: nat
    var acked: nat
    var nacked: nat
    var expired: nat
    var walErr: bool
    var wake: nat
    ghost const start: Time
    ghost var s: State
    ghost var run: seq<Event>

    /** New: an empty queue, its defaults filled in. */
    constructor (config: Config, log: WAL, ghost clock: Time)
      ensures cfg == config.Normalized() && wal == log && start == clock
      ensures cfg.mode == (if config.mode == "" then "fifo" else config.mode)
      ensures cfg.visibilityTimeoutMS == (if config.visibilityTimeoutMS <= 0 then 30000 else config.visibilityTimeoutMS)
      ensures cfg == config.(mode := cfg.mode, visibilityTimeoutMS := cfg.visibilityTimeoutMS)
      ensures Core() && run == [] && s == Fresh(cfg, clock)
      ensures fresh(ready) && fresh(delayed) && fresh(inflight)
      ensures ready.contents == {} && delayed.contents == {} && inflight.contents == {}
    {
      var c := config.Normalized();
      cfg, wal, start := c, log, clock;
      ready := new MsgHeap(ByArrival(c.mode));
      delayed := new MsgHeap(ByVisibleAt);
      inflight := new MsgHeap(ByLeaseExpiry);
      seqNo, leases, dlq := 0, map[], [];
      enqueued, delivered, acked, nacked, expired := 0, 0, 0, 0, 0;
      walErr, wake := false, 0;
      s, run := Fresh(c, clock), [];
    }

    /** Three heaps, each in its own order, sharing no message. */
    ghost predicate Shelves()
      reads ready, delayed, inflight, ready.contents, delayed.contents, inflight.contents
    {
      && ready != delayed && ready != inflight && delayed != inflight
      && ready.order == ByArrival(cfg.mode) && delayed.order == ByVisibleAt && inflight.order == ByLeaseExpiry
      && ready.Valid() && delayed.Valid() && inflight.Valid()
      && ready.contents !! delayed.contents && ready.contents !! inflight.contents
      && delayed.contents !! inflight.contents
    }

    /** The message is in none of the heaps, under any object or ID. */
    ghost predicate Loose(m: MsgRef)
      reads ready, delayed, inflight, m
    {
      && m !in ready.contents && m !in delayed.contents && m !in inflight.contents
      && m.msg.id == m.id && m.id !in ready.view && m.id !in delayed.view && m.id !in inflight.view
    }

    /** placeLocked */
    method Put(m: MsgRef, now: Time)
      requires Shelves() && Loose(m)
      modifies ready, delayed, m`index, ready.contents`index, delayed.contents`index
      ensures Shelves()
      ensures m.msg.Ready(now) ==>
                && ready.view == old(ready.view)[m.id := m.msg] && delayed.view == old(delayed.view)
                && ready.contents == old(ready.contents) + {m} && delayed.contents == old(delayed.contents)
      ensures !m.msg.Ready(now) ==>
                && ready.view == old(ready.view) && delayed.view == old(delayed.view)[m.id := m.msg]
                && ready.contents == old(ready.contents) && delayed.contents == old(delayed.contents) + {m}
    {
      hide MsgHeap.Valid;
      if m.msg.Ready(now) {
        ready.Push(m);
      } else {
        delayed.Push(m);
      }
    }

    /** Fields and heaps show the memory mem. */
    ghost predicate Shown(mem: Memory)
      reads this, ready, delayed, inflight
    {
      && cfg == mem.cfg && seqNo == mem.seqNo && wake == mem.wake
      && enqueued == mem.enqueued && delivered == mem.delivered
      && acked == mem.acked && nacked == mem.nacked && expired == mem.expired
      && ready.view == mem.ready && delayed.view == mem.delayed && inflight.view == mem.inflight
    }

    /** Dead letters are in no heap, and show their values. */
    ghost predicate Graves(dead: seq<Msg>)
      reads this`dlq, ready`contents, delayed`contents, inflight`contents, dlq`msg
    {
      && |dlq| == |dead|
      && forall i :: 0 <= i < |dlq| ==>
           && dlq[i].msg == dead[i] && dlq[i].id == dlq[i].msg.id
           && dlq[i] !in ready.contents && dlq[i] !in delayed.contents && dlq[i] !in inflight.contents
    }

    /** Receipts lead to the inflight messages they were issued for. */
    ghost predicate Tickets(tickets: map<Id, Id>)
      reads this`leases, inflight`contents
    {
      && leases.Keys == tickets.Keys
      && forall r :: r in leases ==> leases[r] in inflight.contents && leases[r].id == tickets[r]
    }

    /** The state is the one its run leads to. */
    ghost predicate Reached()
      reads this
    {
      cfg.Normalized() == cfg && Legal(Fresh(cfg, start), run) && s == Final(Fresh(cfg, start), run)
    }

    /** The queue in memory is the one its run leads to. */
    ghost predicate Core()
      reads this, ready, delayed, inflight, ready.contents, delayed.contents, inflight.contents, dlq
    {
      Shelves() && Shown(s.mem) && Graves(s.mem.dlq) && Tickets(s.mem.leases) && Reached()
    }

    ghost predicate Valid()
      reads this, ready, delayed, inflight, ready.contents, delayed.contents, inflight.contents, dlq, wal
    {
      Core() && wal.Valid() && (s.disk.latched ==> wal.failed)
    }

    /** Take one step of the model. */
    ghost method Do(e: Event)
      requires Reached() && Enabled(s, e)
      modifies this`s, this`run
      ensures Reached() && s == Step(old(s), e) && run == old(run) + [e]
    {
      OneMore(Fresh(cfg, start), run, e);
      hide Step, Enabled, Legal, Final;
      s, run := Step(s, e), run + [e];
    }

    /** Take the step that the fields and heaps already show. */
    ghost method Finish(e: Event)
      requires Shelves() && Reached() && Enabled(s, e)
      requires Shown(Step(s, e).mem) && Graves(Step(s, e).mem.dlq) && Tickets(Step(s, e).mem.leases)
      modifies this`s, this`run
      ensures Core() && s == Step(old(s), e) && run == old(run) + [e]
    {
      hide MsgHeap.Valid, Step, Enabled, Legal, Final;
      Do(e);
    }

    /** A step that leaves memory as it is. */
    ghost method DoQuiet(e: Event)
      requires Core() && Enabled(s, e) && Step(s, e).mem == s.mem
      modifies this`s, this`run
      ensures Core() && s == Step(old(s), e) && run == old(run) + [e]
    {
      hide MsgHeap.Valid, Step, Enabled, Legal, Final, Shown, Graves, Tickets;
      Finish(e);
    }

    /** Learn of a latch that another queue's failed fsync caused. */
    ghost method CatchUp()
      requires Core() && (s.disk.latched ==> wal.failed)
      modifies this`s, this`run
      ensures Core() && s == old(s).(disk := old(s.disk).(latched := wal.failed))
      ensures run == old(run) + if wal.failed && !old(s.disk.latched) then [OtherLatch] else []
    {
      if wal.failed && !s.disk.latched {
        hide Core;
        DoQuiet(OtherLatch);
      }
    }

    lemma Arrived()
      requires Core()
      ensures Legal(Fresh(cfg, start), run) && s == Final(Fresh(cfg, start), run)
    {
      hide Shelves, Shown, Graves, Tickets, Legal, Final;
    }

    /** Everything known of a reached state. */
    lemma Facts()
      requires Reached()
      ensures Full(s) && Numbered(s) && Inv(s)
    {
      hide Full, Numbered;
      FreshFull(cfg, start);
      FreshNumbered(cfg, start);
      FullRun(Fresh(cfg, start), run);
      NumberedRun(Fresh(cfg, start), run);
      FullInv(s);
    }

    lemma InflightShows(m: MsgRef)
      requires Shelves() && m in inflight.contents
      ensures 0 <= m.index < |inflight.items| && inflight.items[m.index] == m
      ensures m.msg.id == m.id && m.id in inflight.view && inflight.view[m.id] == m.msg
    {
      inflight.SlotOf(m);
    }

    /** Take a leased message out of inflight by its cached index. */
    method Release(m: MsgRef)
      requires Shelves() && m in inflight.contents && m.id !in ready.view && m.id !in delayed.view
      modifies inflight, inflight.contents`index
      ensures Shelves() && Loose(m)
      ensures inflight.view == old(inflight.view) - {m.id} && inflight.contents == old(inflight.contents) - {m}
    {
      inflight.SlotOf(m);
      hide MsgHeap.Valid;
      var _ := inflight.Remove(m.index);
    }

    // ---------- one step of the model at a time ----------

    /** The step that ends a lease for good. */
    method AckStep(receipt: Id)
      requires Core() && receipt in leases && !s.disk.latched
      modifies this, inflight, inflight.contents`index
      ensures Core() && run == old(run) + [Model.Ack(receipt, Ok)]
      ensures Enabled(old(s), Model.Ack(receipt, Ok)) && s == Step(old(s), Model.Ack(receipt, Ok))
      ensures receipt !in leases
    {
      hide MsgHeap.Valid, Step, Enabled, Legal, Final, Full, Inv, Numbered;
      Facts();
      LeaseFacts(s, receipt);
      CanAck(s, receipt, Ok);
      AckEffect(s, receipt, Ok);
      var m := leases[receipt];
      Release(m);
      leases := leases - {receipt};
      acked := acked + 1;
      Finish(Model.Ack(receipt, Ok));
    }

    /** Change the expiry of a leased message and restore the inflight order. */
    method Renew(m: MsgRef, expiry: Time)
      requires Shelves() && m in inflight.contents
      modifies inflight, inflight.contents
      ensures Shelves() && inflight.contents == old(inflight.contents)
      ensures m.msg == old(m.msg).(leaseExpiry := expiry) && inflight.view == old(inflight.view)[m.id := m.msg]
    {
      hide MsgHeap.ValidBut, MsgHeap.Valid;
      inflight.SlotOf(m);
      inflight.ChangeMsg(m, m.msg.(leaseExpiry := expiry));
      inflight.Fix(m.index);
    }

    /** The step that renews a lease. */
    method ExtendStep(receipt: Id, expiry: Time)
      requires Core() && receipt in leases
      modifies this, inflight, inflight.contents
      ensures Core() && run == old(run) + [Model.Extend(receipt, expiry)]
      ensures Enabled(old(s), Model.Extend(receipt, expiry)) && s == Step(old(s), Model.Extend(receipt, expiry))
      ensures s.mem.inflight == old(s.mem).inflight[old(leases[receipt].id) :=
                                  old(leases[receipt].msg).(leaseExpiry := expiry)]
    {
      hide MsgHeap.Valid, Step, Enabled, Legal, Final, Full, Inv, Numbered;
      Facts();
      ExtendEffect(s, receipt, expiry);
      inflight.SlotOf(leases[receipt]);
      Renew(leases[receipt], expiry);
      Finish(Model.Extend(receipt, expiry));
    }

    /** Move the earliest delayed message to ready. */
    method PromoteStep(m: MsgRef, now: Time)
      requires Core() && |delayed.items| > 0 && m == delayed.items[0] && m in delayed.contents
      requires m.id in delayed.view && m.msg == delayed.view[m.id]
      requires m.msg.visibleAt <= now <= s.clock
      modifies this`s, this`run, ready, delayed, ready.contents`index, delayed.contents`index
      ensures Core() && run == old(run) + [Model.Promote(m.id, now)]
      ensures Enabled(old(s), Model.Promote(m.id, now)) && s == Step(old(s), Model.Promote(m.id, now))
      ensures ready.contents + delayed.contents == old(ready.contents + delayed.contents)
    {
      hide MsgHeap.Valid, Step, Enabled, Legal, Final, Full, Inv, Numbered;
      Facts();
      PromoteEffect(s, m.id, now);
      Promote(m);
      Finish(Model.Promote(m.id, now));
    }

    method Promote(m: MsgRef)
      requires Shelves() && |delayed.items| > 0 && m == delayed.items[0] && m in delayed.contents
      requires m.msg.id == m.id && m.id !in ready.view
      modifies ready, delayed, ready.contents`index, delayed.contents`index
      ensures Shelves()
      ensures ready.view == old(ready.view)[m.id := m.msg] && delayed.view == old(delayed.view) - {m.id}
      ensures ready.contents == old(ready.contents) + {m} && delayed.contents == old(delayed.contents) - {m}
    {
      hide MsgHeap.Valid;
      var root := delayed.Pop();
      ready.Push(root);
    }

    /** What retryLocked needs: the message is loose, and memory is as st says. */
    ghost predicate Retriable(m: MsgRef, st: State)
      reads this`dlq, ready, delayed, inflight, ready.contents, delayed.contents, inflight.contents, dlq, m
    {
      && Shelves() && Loose(m) && m !in dlq && Graves(st.mem.dlq)
      && cfg == st.mem.cfg && ready.view == st.mem.ready && delayed.view == st.mem.delayed
    }

    /** retryLocked */
    method Retry(m: MsgRef, now: Time, delay: int, ghost st: State) returns (o: Outcome)
      requires Retriable(m, st) && wal.Valid()
      modifies this`dlq, wal, ready, delayed, m, ready.contents`index, delayed.contents`index
      ensures Shelves() && wal.Valid()
      ensures var t := Model.Retry(st, old(m.msg), now, delay, o);
              ready.view == t.mem.ready && delayed.view == t.mem.delayed && Graves(t.mem.dlq)
      ensures wal.Trouble() >= old(wal.Trouble()) && (o == Ok <==> wal.Untroubled())
      ensures (old(wal.failed) ==> o == NotWritten) && (wal.failed <==> old(wal.failed) || o == NotSynced)
      ensures wal.AtPath() == old(wal.AtPath()).Durable(RetryRecord(cfg, old(m.msg), now, delay), o)
      ensures ready.contents <= old(ready.contents) + {m} && delayed.contents <= old(delayed.contents) + {m}
    {
      hide MsgHeap.Valid, WAL.Valid, WAL.AtPath;
      if cfg.Exhausted(m.msg) {
        o := wal.AppendSync(DeadRecord(cfg.name, m.msg.id));
        if o == Ok {
          dlq := dlq + [m];
        } else {
          m.msg := m.msg.(visibleAt := now);
          Put(m, now);
        }
      } else {
        m.msg := m.msg.(visibleAt := now + delay);
        o := wal.AppendSync(NackRecord(cfg.name, m.msg));
        if o == Ok {
          Put(m, now);
        }
      }
    }

    /** Strike the lease of a message: out of inflight and of the lease table. */
    method EndLeaseOf(m: MsgRef)
      requires Core() && m in inflight.contents
      modifies this`leases, inflight, inflight.contents
      ensures m.id in s.mem.inflight && m.msg == s.mem.inflight[m.id].Unleased()
      ensures inflight.contents == old(inflight.contents) - {m}
      ensures var st := s.(mem := EndLease(s.mem, s.mem.inflight[m.id]));
              Retriable(m, st) && Tickets(st.mem.leases) && Shown(st.mem)
    {
      hide MsgHeap.Valid, Legal, Final, Full, Inv, Numbered, Loose;
      Facts();
      inflight.SlotOf(m);
      InflightFacts(s, m.id);
      LeaseFacts(s, m.msg.receipt);
      var receipt := m.msg.receipt;
      Release(m);
      leases := leases - {receipt};
      Unlease(m);
    }

    /** Wipe the lease of a loose message. */
    method Unlease(m: MsgRef)
      requires Shelves() && Loose(m)
      modifies m`msg
      ensures Shelves() && Loose(m) && m.msg == old(m.msg).Unleased()
    {
      hide MsgHeap.Valid;
      m.msg := m.msg.Unleased();
    }

    /** The rest of the queue is as Retry leaves it. */
    lemma RetryShows(st: State, m: Msg, now: Time, delay: int, o: Outcome)
      requires Shown(st.mem.(ready := ready.view, delayed := delayed.view))
      requires Tickets(st.mem.leases)
      requires var t := Model.Retry(st, m, now, delay, o); ready.view == t.mem.ready && delayed.view == t.mem.delayed
      ensures Shown(Model.Retry(st, m, now, delay, o).mem) && Tickets(Model.Retry(st, m, now, delay, o).mem.leases)
    {
      hide Model.Retry;
      RetryFrame(st, m, now, delay, o);
    }

    method EndAndCount(m: MsgRef, expiry: bool)
      requires Core() && m in inflight.contents
      modifies this`leases, this`expired, this`nacked, inflight, inflight.contents
      ensures m.id in s.mem.inflight && m.msg == s.mem.inflight[m.id].Unleased()
      ensures inflight.contents == old(inflight.contents) - {m}
      ensures var st := Ended(s, m.id, expiry);
              Retriable(m, st) && Tickets(st.mem.leases) && Shown(st.mem)
    {
      hide MsgHeap.Valid, Legal, Final, Shelves, Graves, Tickets, Loose;
      EndLeaseOf(m);
      if expiry {
        expired := expired + 1;
      } else {
        nacked := nacked + 1;
      }
    }

    /** What expiry and nack have in common: end the lease, count it, retry. */
    method EndAndRetry(m: MsgRef, now: Time, delay: int, expiry: bool) returns (o: Outcome)
      requires Core() && wal.Valid() && m in inflight.contents
      modifies this`leases, this`expired, this`nacked, this`dlq
      modifies wal, ready, delayed, inflight, inflight.contents, ready.contents`index, delayed.contents`index
      ensures m.id in s.mem.inflight && Reached() && Shelves() && wal.Valid()
      ensures var t := Model.Retry(Ended(s, m.id, expiry), s.mem.inflight[m.id].Unleased(), now, delay, o);
              Shown(t.mem) && Graves(t.mem.dlq) && Tickets(t.mem.leases)
      ensures wal.Trouble() >= old(wal.Trouble()) && (o == Ok <==> wal.Untroubled())
      ensures (old(wal.failed) ==> o == NotWritten) && (wal.failed <==> old(wal.failed) || o == NotSynced)
      ensures wal.AtPath() ==
              old(wal.AtPath()).Durable(RetryRecord(cfg, s.mem.inflight[m.id].Unleased(), now, delay), o)
      ensures ready.contents <= old(ready.contents) + {m} && delayed.contents <= old(delayed.contents) + {m}
      ensures inflight.contents == old(inflight.contents) - {m}
    {
      hide MsgHeap.Valid, WAL.Valid, WAL.AtPath, Model.Retry, RetryRecord, Legal, Final, Shelves, Graves, Tickets;
      EndAndCount(m, expiry);
      ghost var st := Ended(s, m.id, expiry);
      o := Retry(m, now, delay, st);
      RetryShows(st, s.mem.inflight[m.id].Unleased(), now, delay, o);
    }

    /** Reclaim an expired lease. */
    method ExpireStep(m: MsgRef, now: Time) returns (o: Outcome)
      requires Core() && wal.Valid() && s.disk.latched == wal.failed && m in inflight.contents
      requires m.msg.leaseExpiry <= now <= s.clock
      modifies this, wal, ready, delayed, inflight, inflight.contents, ready.contents`index, delayed.contents`index
      ensures Core() && wal.Valid() && s.disk.latched == wal.failed
      ensures run == old(run) + [Model.Expire(m.id, now, o)]
      ensures Enabled(old(s), Model.Expire(m.id, now, o)) && s == Step(old(s), Model.Expire(m.id, now, o))
      ensures wal.Trouble() >= old(wal.Trouble()) && (o == Ok <==> wal.Untroubled())
      ensures m.id in old(s).mem.inflight
      ensures wal.AtPath() ==
              old(wal.AtPath()).Durable(RetryRecord(cfg, old(s).mem.inflight[m.id].Unleased(), now, 0), o)
      ensures ready.contents <= old(ready.contents) + {m} && delayed.contents <= old(delayed.contents) + {m}
      ensures inflight.contents == old(inflight.contents) - {m}
    {
      hide MsgHeap.Valid, WAL.Valid, WAL.AtPath, Model.Retry, RetryRecord, Step, Enabled, Legal, Final;
      hide Shelves, Graves, Tickets;
      InflightShows(m);
      assert s.mem.inflight[m.id].leaseExpiry <= now;
      o := EndAndRetry(m, now, 0, true);
      ExpireEffect(s, m.id, now, o);
      RetryLatch(Ended(s, m.id, true), s.mem.inflight[m.id].Unleased(), now, 0, o);
      Finish(Model.Expire(m.id, now, o));
    }

    /** Read the clock under the lock. */
    ghost method Begin(now: Time)
      requires Core() && (s.disk.latched ==> wal.failed) && s.clock <= now
      modifies this`s, this`run
      ensures Core() && s == old(s).(disk := old(s.disk).(latched := wal.failed), clock := now)
      ensures run == old(run) + Prelude(wal.failed, old(s.disk.latched), now)
    {
      hide Core;
      CatchUp();
      DoQuiet(Clock(now));
    }

    /** signalLocked: close the wake channel and install a fresh one. */
    method SignalLocked()
      requires Core()
      modifies this`wake, this`s, this`run
      ensures Core() && s == old(s).(mem := old(s.mem).(wake := old(s.mem.wake) + 1, owed := false))
      ensures run == old(run) + [Signal]
    {
      hide MsgHeap.Valid, Shelves, Graves, Tickets, Legal, Final;
      wake := wake + 1;
      Finish(Signal);
    }

    /** End a lease before it expires. */
    method NackStep(receipt: Id, m: MsgRef, delay: int, now: Time) returns (o: Outcome)
      requires Core() && wal.Valid() && s.disk.latched == wal.failed && now == s.clock
      requires m in inflight.contents && Leases(s.mem, receipt) && s.mem.leases[receipt] == m.id
      modifies this, wal, ready, delayed, inflight, inflight.contents, ready.contents`index, delayed.contents`index
      ensures Core() && wal.Valid() && s.disk.latched == wal.failed
      ensures run == old(run) + [Model.Nack(receipt, delay, o)]
      ensures Enabled(old(s), Model.Nack(receipt, delay, o)) && s == Step(old(s), Model.Nack(receipt, delay, o))
      ensures wal.Trouble() >= old(wal.Trouble()) && (o == Ok <==> wal.Untroubled())
      ensures wal.AtPath() ==
              old(wal.AtPath()).Durable(RetryRecord(cfg, old(s).mem.inflight[m.id].Unleased(), now, delay), o)
    {
      hide MsgHeap.Valid, WAL.Valid, WAL.AtPath, Model.Retry, RetryRecord, Step, Enabled, Legal, Final;
      hide Shelves, Graves, Tickets, Shown;
      o := EndAndRetry(m, now, delay, false);
      NackEffect(s, receipt, delay, o);
      RetryLatch(Ended(s, m.id, false), s.mem.inflight[m.id].Unleased(), now, delay, o);
      Finish(Model.Nack(receipt, delay, o));
    }

    lemma TicketLeads(receipt: Id)
      requires Core() && receipt in leases
      ensures leases[receipt] in inflight.contents && Leases(s.mem, receipt) && cfg == s.mem.cfg
      ensures s.mem.leases[receipt] == leases[receipt].id && leases[receipt].msg == s.mem.inflight[leases[receipt].id]
    {
      hide MsgHeap.Valid, Legal, Final, Full, Inv, Numbered;
      Facts();
      LeaseFacts(s, receipt);
      inflight.SlotOf(leases[receipt]);
    }

    /** Nack: the message goes back, delayed if asked, or to the dead letters. */
    method Nack(receipt: Id, delay: int, now: Time) returns (st: Status, ghost o: Outcome)
      requires Valid() && s.clock <= now
      modifies this, wal, ready, delayed, inflight, inflight.contents, ready.contents`index, delayed.contents`index
      ensures Valid()
      ensures receipt !in old(leases) ==> st == NoLease && s == old(s) && wal.AtPath() == old(wal.AtPath())
      ensures receipt in old(leases) ==>
                && st == (if o == Ok then Done else LogError) && (st == Done <==> wal.Untroubled())
                && Alike(old(s.disk), s.disk, old(wal.AtPath()), wal.AtPath())
                && run == old(run) + Prelude(old(wal.failed), old(s.disk.latched), now)
                          + [Model.Nack(receipt, delay, o)] + (if o == Ok then [Signal] else [])
      ensures st == Done ==>
                var m := old(leases[receipt].msg).(receipt := "", leaseExpiry := 0);
                if cfg.maxAttempts > 0 && m.attempts >= cfg.maxAttempts then s.mem.dlq == old(s.mem).dlq + [m]
                else s.mem.dlq == old(s.mem).dlq && Waits(s.mem, m.(visibleAt := now + delay), now)
      ensures receipt in old(leases) && !old(s.mem.owed) ==>
                (s.mem.owed <==> o != Ok && cfg.Exhausted(old(leases[receipt].msg)))
    {
      hide Core, WAL.Valid, WAL.AtPath, Step, Enabled, RetryRecord, Logged, Inv;
      o := Ok;
      if receipt !in leases {
        return NoLease, o;
      }
      Begin(now);
      TicketLeads(receipt);
      ghost var disk, file, msg := s.disk, wal.AtPath(), s.mem.inflight[leases[receipt].id].Unleased();
      ghost var before := s;
      Cfg();
      var out := NackStep(receipt, leases[receipt], delay, now);
      o := out;
      NackLogs(before, receipt, delay, o);
      if !before.mem.owed {
        Wakeups.NackOwesExactlyOnDeadFault(before, receipt, delay, o);
      }
      AlikeDurable(disk, file, RetryRecord(cfg, msg, now, delay), o);
      if out != Ok {
        return LogError, o;
      }
      RetryOutcome(before, Model.Nack(receipt, delay, Ok));
      SignalLocked();
      st := Done;
    }

    /** Extend: renew a lease; nothing is logged. */
    method Extend(receipt: Id, visibility: int, now: Time) returns (st: Status, expiry: Time)
      requires Valid() && s.clock <= now
      modifies this, inflight, inflight.contents
      ensures Valid() && s.disk.log == old(s.disk.log)
      ensures receipt !in old(leases) ==> st == NoLease && s == old(s)
      ensures receipt in old(leases) ==>
                && st == Done
                && expiry == now + (if visibility <= 0 then cfg.visibilityTimeoutMS * 1_000_000 else visibility)
                && s.mem.inflight == old(s.mem).inflight[old(leases[receipt].id) :=
                     old(leases[receipt].msg).(leaseExpiry := expiry)]
                && run == old(run) + Prelude(wal.failed, old(s.disk.latched), now) + [Model.Extend(receipt, expiry)]
    {
      hide Core, WAL.Valid, Enabled;
      if receipt !in leases {
        return NoLease, ZERO_TIME;
      }
      Begin(now);
      expiry := now + if visibility <= 0 then cfg.Visibility() else visibility;
      ExtendStep(receipt, expiry);
      st := Done;
    }

    /** A new message object, filed where its delay gate says. */
    method FileNew(msg: Msg, now: Time, ghost mem: Memory)
      requires Shelves() && Graves(mem.dlq) && ready.view == mem.ready && delayed.view == mem.delayed
      requires msg.id !in ready.view && msg.id !in delayed.view && msg.id !in inflight.view
      modifies ready, delayed, ready.contents`index, delayed.contents`index
      ensures Shelves() && Graves(mem.dlq) && inflight != ready && inflight != delayed
      ensures ready.view == Place(mem, msg, now).ready && delayed.view == Place(mem, msg, now).delayed
      ensures fresh(ready.contents - old(ready.contents)) && fresh(delayed.contents - old(delayed.contents))
    {
      hide MsgHeap.Valid;
      var m := new MsgRef(msg);
      Put(m, now);
    }

    /** The step that files a new message. */
    method EnqueueStep(msg: Msg, now: Time, ghost e: Event)
      requires Core() && e.Enqueue? && e.o == Ok && !s.disk.latched && now == s.clock && msg == NewMsg(s, e)
      requires e.id !in s.book.used && e.id != NO_RECEIPT && (e.priority == 0 || cfg.priority)
      modifies this, ready, delayed, ready.contents`index, delayed.contents`index
      ensures Core() && run == old(run) + [e] && Enabled(old(s), e) && s == Step(old(s), e)
      ensures fresh(ready.contents - old(ready.contents)) && fresh(delayed.contents - old(delayed.contents))
    {
      hide MsgHeap.Valid, Step, Enabled, Legal, Final, Full, Inv, Numbered, Shelves, Graves, Tickets;
      Facts();
      EnqueueEffect(s, e);
      ghost var mem := s.mem.(seqNo := s.mem.seqNo + 1);
      PlaceFrame(mem, msg, now);
      seqNo := msg.seqNo;
      FileNew(msg, now, mem);
      enqueued := enqueued + 1;
      Finish(e);
    }

    /** A failed Enqueue still uses up its sequence number. */
    method EnqueueFault(ghost e: Event)
      requires Core() && e.Enqueue? && e.o != Ok && Possible(s.disk, e.o)
      requires e.id !in s.book.used && e.id != NO_RECEIPT && (e.priority == 0 || cfg.priority)
      modifies this
      ensures Core() && run == old(run) + [e] && Enabled(old(s), e) && s == Step(old(s), e)
    {
      hide MsgHeap.Valid, Step, Enabled, Legal, Final, Full, Inv, Numbered, Shelves, Graves, Tickets;
      Facts();
      EnqueueEffect(s, e);
      seqNo := seqNo + 1;
      Finish(e);
    }

    lemma Cfg()
      requires Core()
      ensures ready != delayed && ready != inflight && delayed != inflight
      ensures cfg == s.mem.cfg && seqNo == s.mem.seqNo && Inv(s)
    {
      hide Inv, Full, Numbered;
      Facts();
    }

    /** Enqueue: durable first, visible second. */
    method Enqueue(body: string, priority: int, delay: int, id: Id, now: Time)
      returns (st: Status, msg: Msg, ghost o: Outcome)
      requires Valid() && s.clock <= now && id !in s.book.used && id != NO_RECEIPT
      modifies this, wal, ready, delayed, ready.contents`index, delayed.contents`index
      ensures Valid()
      ensures fresh(ready.contents - old(ready.contents)) && fresh(delayed.contents - old(delayed.contents))
      ensures priority != 0 && !cfg.priority <==> st == PriorityDisabled
      ensures wal.Trouble() >= old(wal.Trouble()) && (st == Done ==> !wal.failed)
      ensures st == PriorityDisabled ==> s == old(s) && run == old(run) && unchanged(wal)
      ensures st != PriorityDisabled ==>
                && Alike(old(s.disk), s.disk, old(wal.AtPath()), wal.AtPath())
                && st == (if o == Ok then Done else LogError) && (st == Done <==> wal.Untroubled())
                && run == old(run) + Prelude(old(wal.failed), old(s.disk.latched), now)
                          + [Model.Enqueue(id, body, priority, delay, o)] + (if o == Ok then [Signal] else [])
                && msg == Msg(id, body, priority, old(s.mem.seqNo) + 1, now + delay, now, 0, NO_RECEIPT, ZERO_TIME)
                && s.mem.seqNo == old(s.mem.seqNo) + 1
      ensures st == Done ==>
                && Waits(s.mem, msg, now)
                && Logged(old(s.disk), s.disk, OpEnqueue, cfg.name, id, Some(msg))
      ensures !old(s.mem.owed) ==> !s.mem.owed
      ensures st == Done ==> s.clock == now && s.book.used == old(s.book.used) + {id}
    {
      hide Core, WAL.Valid, WAL.AtPath, Step, Enabled, Inv, Waits, Logged, Alike;
      o := Ok;
      msg := Msg(id, body, priority, seqNo + 1, now + delay, now, 0, NO_RECEIPT, ZERO_TIME);
      if priority != 0 && !cfg.priority {
        return PriorityDisabled, msg, o;
      }
      Begin(now);
      Cfg();
      ghost var file := wal.AtPath();
      var out := wal.AppendSync(EnqueueRecord(cfg.name, msg));
      o := out;
      CaughtUp(old(s.disk), s.disk, file, EnqueueRecord(cfg.name, msg), o);
      st := Publish(msg, now, out, Model.Enqueue(id, body, priority, delay, o));
    }

    /** The part of Enqueue that follows its append. */
    method Publish(msg: Msg, now: Time, out: Outcome, ghost e: Event) returns (st: Status)
      requires Core() && e.Enqueue? && e.o == out && Possible(s.disk, out) && now == s.clock && msg == NewMsg(s, e)
      requires e.id !in s.book.used && e.id != NO_RECEIPT && (e.priority == 0 || cfg.priority)
      modifies this, ready, delayed, ready.contents`index, delayed.contents`index
      ensures Core() && st == (if out == Ok then Done else LogError)
      ensures run == old(run) + [e] + if out == Ok then [Signal] else []
      ensures s.disk == old(s.disk).Durable(EnqueueRecord(cfg.name, msg), out)
      ensures out == Ok ==>
                && Waits(s.mem, msg, now)
                && Logged(old(s.disk), s.disk, OpEnqueue, cfg.name, e.id, Some(msg))
      ensures s.clock == now && s.book.used == old(s.book.used) + {e.id} && (s.mem.owed ==> old(s.mem.owed))
      ensures s.mem.seqNo == old(s.mem.seqNo) + 1
      ensures fresh(ready.contents - old(ready.contents)) && fresh(delayed.contents - old(delayed.contents))
    {
      hide Core, Step, Enabled, Inv, Logged;
      Cfg();
      EnqueueEffect(s, e);
      if out != Ok {
        EnqueueFault(e);
        return LogError;
      }
      EnqueueOutcome(s, e);
      EnqueueStep(msg, now, e);
      SignalLocked();
      st := Done;
    }

    /** The root of the delayed heap, if it is due. */
    method NextDue(now: Time) returns (m: MsgRef?)
      requires Core()
      ensures m == null ==> forall id :: id in s.mem.delayed ==> s.mem.delayed[id].visibleAt > now
      ensures m != null ==>
                && |delayed.items| > 0 && m == delayed.items[0] && m in delayed.contents
                && m.id in delayed.view && m.msg == delayed.view[m.id] && m.msg.visibleAt <= now
                && delayed.view == s.mem.delayed
    {
      hide MsgHeap.Valid, Reached, Graves, Tickets;
      m := delayed.Peek();
      if m != null && !m.msg.Ready(now) {
        return null;
      }
    }

    /** The delay gate: everything whose time has come moves to ready. */
    method OpenGates(now: Time) returns (woke: bool)
      requires Core() && now <= s.clock
      modifies this`s, this`run, ready, delayed, ready.contents`index, delayed.contents`index
      ensures Core() && s == old(s).(mem := s.mem) && Pump.Pumping(old(s.mem), s.mem, now)
      ensures forall id :: id in s.mem.delayed ==> s.mem.delayed[id].visibleAt > now
      ensures s.mem == old(s.mem).(ready := s.mem.ready, delayed := s.mem.delayed, owed := s.mem.owed)
      ensures (s.mem.owed ==> old(s.mem.owed) || woke) && (woke || s == old(s))
      ensures Pumped(old(run), run, now) && forall i :: |old(run)| <= i < |run| ==> !run[i].Expire?
      ensures ready.contents + delayed.contents == old(ready.contents + delayed.contents)
    {
      hide Core, Step, Enabled, Pump.Pumping, Inv;
      woke := false;
      Pump.PumpStarts(s.mem, now);
      Cfg();
      ghost var m0 := s.mem;
      InvPlaces(s);
      while true
        invariant Core() && s == old(s).(mem := s.mem) && Pump.Pumping(m0, s.mem, now)
        invariant s.mem == old(s.mem).(ready := s.mem.ready, delayed := s.mem.delayed, owed := s.mem.owed)
        invariant (s.mem.owed ==> old(s.mem.owed) || woke) && (woke || s == old(s))
        invariant Pumped(old(run), run, now) && forall i :: |old(run)| <= i < |run| ==> !run[i].Expire?
        invariant ready.contents + delayed.contents == old(ready.contents + delayed.contents)
        decreases |s.mem.delayed|
      {
        var moved := OpenNext(now, m0);
        if !moved {
          break;
        }
        woke := true;
      }
    }

    /** Move the first message whose time has come, if there is one. */
    method OpenNext(now: Time, ghost m0: Memory) returns (found: bool)
      requires Core() && now <= s.clock && Places(m0) && Pump.Pumping(m0, s.mem, now)
      modifies this`s, this`run, ready, delayed, ready.contents`index, delayed.contents`index
      ensures Core() && s == old(s).(mem := s.mem) && Pump.Pumping(m0, s.mem, now)
      ensures s.mem == old(s.mem).(ready := s.mem.ready, delayed := s.mem.delayed, owed := s.mem.owed)
      ensures found ==> |s.mem.delayed| < |old(s.mem).delayed| && |run| == |old(run)| + 1
      ensures found ==> old(run) <= run && run[|old(run)|].Promote? && run[|old(run)|].now == now
      ensures !found ==> s == old(s) && run == old(run)
      ensures !found ==> forall id :: id in s.mem.delayed ==> s.mem.delayed[id].visibleAt > now
      ensures ready.contents + delayed.contents == old(ready.contents + delayed.contents)
    {
      hide Core, Step, Enabled, Pump.Pumping, Inv;
      var m := NextDue(now);
      found := m != null;
      if m != null {
        Cfg();
        InvPlaces(s);
        PromoteEffect(s, m.id, now);
        Pump.PromoteKeepsPumping(m0, s, m.id, now);
        PromoteStep(m, now);
      }
    }

    /** Nobody waits on the pump, so its error is latched for Stats. */
    method NoteError()
      requires Core()
      modifies this`walErr
      ensures Core() && walErr
    {
      hide MsgHeap.Valid;
      walErr := true;
    }

    /** The root of the inflight heap, if its lease has run out. */
    method NextExpired(now: Time) returns (m: MsgRef?)
      requires Core()
      ensures m == null ==> forall id :: id in s.mem.inflight ==> s.mem.inflight[id].leaseExpiry > now
      ensures m != null ==>
                && m in inflight.contents && m.msg.leaseExpiry <= now
                && m.id in s.mem.inflight && s.mem.inflight[m.id] == m.msg
    {
      hide MsgHeap.Valid, Reached, Graves, Tickets;
      m := inflight.Peek();
      if m != null && m.msg.leaseExpiry > now {
        return null;
      }
    }

    /** Lease reclamation: messages of expired leases go back, or to the dead letters. */
    method Reclaim(now: Time, ghost m0: Memory) returns (woke: bool)
      requires Core() && wal.Valid() && s.disk.latched == wal.failed && now <= s.clock
      requires Places(m0) && Pump.Pumping(m0, s.mem, now)
      modifies this, wal, ready, delayed, inflight, inflight.contents, ready.contents`index, delayed.contents`index
      ensures Core() && wal.Valid() && s.disk.latched == wal.failed && s.clock == old(s.clock)
      ensures s.mem.delayed == old(s.mem.delayed) && s.mem.wake == old(s.mem.wake) && s.book.used == old(s.book.used)
      ensures forall id :: id in s.mem.inflight ==> s.mem.inflight[id].leaseExpiry > now
      ensures ExpiriesLogged(old(run), run) ==> Pump.Pumping(m0, s.mem, now)
      ensures wal.Trouble() >= old(wal.Trouble()) && (wal.Untroubled() ==> !wal.failed && ExpiriesLogged(old(run), run))
      ensures woke || s == old(s)
      ensures Pumped(old(run), run, now) && Alike(old(s.disk), s.disk, old(wal.AtPath()), wal.AtPath())
      ensures inflight.contents <= old(inflight.contents)
      ensures ready.contents + delayed.contents <= old(ready.contents + delayed.contents + inflight.contents)
    {
      hide Core, Step, Enabled, Pump.Pumping, Inv, WAL.Valid, WAL.AtPath, RetryRecord, Alike, Pumped, ExpiriesLogged;
      woke := false;
      AlikeStart(s.disk, wal.AtPath());
      PumpedStart(run, now);
      while true
        invariant Core() && wal.Valid() && s.disk.latched == wal.failed && s.clock == old(s.clock)
        invariant s.mem.delayed == old(s.mem.delayed) && s.mem.wake == old(s.mem.wake)
        invariant s.book.used == old(s.book.used)
        invariant ExpiriesLogged(old(run), run) ==> Pump.Pumping(m0, s.mem, now)
        invariant wal.Trouble() >= old(wal.Trouble())
        invariant wal.Untroubled() ==> !wal.failed && ExpiriesLogged(old(run), run)
        invariant woke || s == old(s)
        invariant Pumped(old(run), run, now) && Alike(old(s.disk), s.disk, old(wal.AtPath()), wal.AtPath())
        invariant inflight.contents <= old(inflight.contents)
        invariant ready.contents + delayed.contents <= old(ready.contents + delayed.contents + inflight.contents)
        decreases |s.mem.inflight|
      {
        var found := ReclaimNext(now, m0, old(run), old(s.disk), old(wal.AtPath()));
        if !found {
          break;
        }
        woke := true;
      }
    }

    /** Reclaim the first lease that has run out, if there is one. */
    method ReclaimNext(now: Time, ghost m0: Memory, ghost run0: seq<Event>, ghost disk0: Disk, ghost file0: Disk)
      returns (found: bool)
      requires Core() && wal.Valid() && s.disk.latched == wal.failed && now <= s.clock && Places(m0)
      requires Pumped(run0, run, now) && Alike(disk0, s.disk, file0, wal.AtPath())
      requires ExpiriesLogged(run0, run) ==> Pump.Pumping(m0, s.mem, now)
      modifies this, wal, ready, delayed, inflight, inflight.contents, ready.contents`index, delayed.contents`index
      ensures Core() && wal.Valid() && s.disk.latched == wal.failed && s.clock == old(s.clock)
      ensures s.mem.delayed == old(s.mem.delayed) && s.mem.wake == old(s.mem.wake) && s.book.used == old(s.book.used)
      ensures found ==> |s.mem.inflight| < |old(s.mem).inflight|
      ensures !found ==> s == old(s) && run == old(run) && unchanged(wal)
      ensures !found ==> forall id :: id in s.mem.inflight ==> s.mem.inflight[id].leaseExpiry > now
      ensures Pumped(run0, run, now) && Alike(disk0, s.disk, file0, wal.AtPath())
      ensures ExpiriesLogged(run0, run) ==> Pump.Pumping(m0, s.mem, now)
      ensures wal.Trouble() >= old(wal.Trouble())
      ensures ExpiriesLogged(run0, old(run)) && wal.Untroubled() ==> !wal.failed && ExpiriesLogged(run0, run)
      ensures inflight.contents <= old(inflight.contents)
      ensures ready.contents + delayed.contents <= old(ready.contents + delayed.contents + inflight.contents)
    {
      hide Core, Step, Enabled, Pump.Pumping, Inv, WAL.Valid, WAL.AtPath, RetryRecord, Alike, Pumped, ExpiriesLogged;
      var m := NextExpired(now);
      found := m != null;
      if m != null {
        Cfg();
        ghost var before, file := s, wal.AtPath();
        var o := ExpireStep(m, now);
        ExpireFrame(before, m.id, now, o);
        PumpedMore(run0, old(run), Model.Expire(m.id, now, o), now);
        if o == Ok {
          if ExpiriesLogged(run0, old(run)) {
            Pump.ExpireKeepsPumping(m0, before, m.id, now);
          }
        } else {
          NoteError();
        }
        AlikeMore(disk0, before.disk, file0, file,
                  RetryRecord(cfg, before.mem.inflight[m.id].Unleased(), now, 0), o);
      }
    }

    /** advanceLocked: peeking at two roots does what a scan of everything would.
        An expiry of this very call that could not be logged is the only excuse; the
        wake channel is closed exactly when something moved. */
    method AdvanceLocked(now: Time)
      requires Core() && wal.Valid() && s.disk.latched == wal.failed && now <= s.clock
      modifies this, wal, ready, delayed, inflight, inflight.contents, ready.contents`index, delayed.contents`index
      ensures Core() && wal.Valid() && s.disk.latched == wal.failed && s.clock == old(s.clock)
      ensures Pump.Settled(s.mem, now) && s.book.used == old(s.book.used)
      ensures ExpiriesLogged(old(run), run) ==> Pump.Scanned(old(s.mem), s.mem, now)
      ensures wal.Trouble() >= old(wal.Trouble()) && (wal.Untroubled() ==> !wal.failed && ExpiriesLogged(old(run), run))
      ensures !old(s.mem.owed) ==> !s.mem.owed
      ensures s == old(s) || s.mem.wake == old(s.mem.wake) + 1
      ensures Pumped(old(run), run, now) && Alike(old(s.disk), s.disk, old(wal.AtPath()), wal.AtPath())
      ensures inflight.contents <= old(inflight.contents)
      ensures ready.contents + delayed.contents <= old(ready.contents + delayed.contents + inflight.contents)
    {
      hide Core, Pump.Pumping, Pump.Scanned, Inv, WAL.Valid, WAL.AtPath, Alike, Pumped, Places, ExpiriesLogged;
      Cfg();
      InvPlaces(s);
      var gates := OpenGates(now);
      ghost var between := run;
      var reclaimed := Reclaim(now, old(s.mem));
      PumpedThen(old(run), between, run, now);
      NoExpiries(old(run), between, run, now);
      Cfg();
      InvPlaces(s);
      if ExpiriesLogged(old(run), run) {
        Pump.PumpedIsScanned(old(s.mem), s.mem, now);
        SignalIsNoMove(old(s.mem), s.mem, now);
      }
      if gates || reclaimed {
        PumpedMore(old(run), run, Signal, now);
        SignalLocked();
      }
    }

    /** Tick: the periodic pump. It may bring a time read before the lock was taken. */
    method Tick(now: Time, clock: Time)
      requires Valid() && s.clock <= clock && now <= clock
      modifies this, wal, ready, delayed, inflight, inflight.contents, ready.contents`index, delayed.contents`index
      ensures Valid() && Pump.Settled(s.mem, now)
      ensures ExpiriesLogged(old(run), run) ==> Pump.Scanned(old(s.mem), s.mem, now)
      ensures wal.Untroubled() ==> ExpiriesLogged(old(run), run)
      ensures !old(s.mem.owed) ==> !s.mem.owed
      ensures Pumped(old(run) + Prelude(old(wal.failed), old(s.disk.latched), clock), run, now)
      ensures Alike(old(s.disk), s.disk, old(wal.AtPath()), wal.AtPath())
    {
      hide Core, WAL.Valid, WAL.AtPath, Pumped, Pump.Settled, Pump.Scanned;
      Begin(clock);
      ghost var begun := run;
      AdvanceLocked(now);
      PreludeExpiresNothing(old(run), begun, run, old(wal.failed), old(s.disk.latched), clock, now);
    }

    // ---------- receiving ----------

    /** These messages have been popped from ready; the model still has them there. */
    ghost predicate Aside(out: seq<MsgRef>, from: map<Id, Msg>)
      reads this`dlq, ready, delayed, inflight, out
    {
      && (forall i :: 0 <= i < |out| ==>
            Loose(out[i]) && out[i] !in dlq && out[i].id in from && out[i].msg == from[out[i].id])
      && (forall i, j :: 0 <= i < j < |out| ==> out[i].id != out[j].id)
    }

    /** The queue is in order but for the messages set aside. */
    ghost predicate Holding(out: seq<MsgRef>)
      reads this, ready, delayed, inflight, ready.contents, delayed.contents, inflight.contents, dlq, out
    {
      && Shelves() && Graves(s.mem.dlq) && Tickets(s.mem.leases) && Reached() && Aside(out, s.mem.ready)
      && Shown(s.mem.(ready := s.mem.ready - Names(out)))
    }

    lemma HoldingNothing()
      ensures Holding([]) <==> Core()
      ensures Core() ==> ready.view == s.mem.ready
    {
      hide Shelves, Graves, Tickets, Reached;
      assert s.mem.ready - Names([]) == s.mem.ready;
    }

    /** Pop the root of ready and set it aside. */
    method TakeRoot(out: seq<MsgRef>, m: MsgRef)
      requires Holding(out) && |ready.items| > 0 && m == ready.items[0] && m in ready.contents
      requires m.id in ready.view && m.msg == ready.view[m.id]
      requires m.msg.id == m.id && m.id !in delayed.view && m.id !in inflight.view
      modifies ready, ready.contents`index
      ensures Holding(out + [m]) && ready.view == old(ready.view) - {m.id}
      ensures ready.contents == old(ready.contents) - {m}
    {
      hide MsgHeap.Valid, Legal, Final;
      var _ := ready.Pop();
      NamesAppend(out, m);
      assert Aside(out + [m], s.mem.ready) by {
        forall i | 0 <= i < |out|
          ensures out[i].id != m.id
        {
          assert out[i].id in Names(out);
        }
      }
    }

    lemma ReadyFacts(out: seq<MsgRef>)
      requires Holding(out)
      ensures DistinctSeq(s.mem.ready) && Keyed(s.mem.ready) && ready.view == s.mem.ready - Names(out)
      ensures forall id :: id in ready.view ==> id !in delayed.view && id !in inflight.view && ready.view[id].id == id
      ensures ready.order == ByArrival(cfg.mode)
    {
      hide MsgHeap.Valid, Legal, Final, Full, Inv, Numbered, DistinctSeq;
      Facts();
      HeldDistinct(s);
      InvPlaces(s);
    }

    /** The root of ready, if there is one: nothing left in ready precedes it. */
    method NextReady(out: seq<MsgRef>) returns (m: MsgRef?)
      requires Holding(out)
      ensures m == null ==> ready.view == map[]
      ensures m != null ==>
                && |ready.items| > 0 && m == ready.items[0] && m in ready.contents
                && m.id in ready.view && m.msg == ready.view[m.id] && m.msg.id == m.id
                && m.id !in delayed.view && m.id !in inflight.view
                && forall id :: id in ready.view ==> !ready.order.Less(ready.view[id], m.msg)
    {
      hide MsgHeap.Valid, Reached, Graves, Tickets, Aside, DistinctSeq, Order.Less;
      ReadyFacts(out);
      m := ready.Peek();
    }

    /** The messages set aside have these values. */
    ghost predicate Values(out: seq<MsgRef>, vals: seq<Msg>)
      reads out
    {
      |vals| == |out| && forall i :: 0 <= i < |out| ==> out[i].msg == vals[i] && out[i].id == vals[i].id
    }

    /** Take the first message off ready, if there is one. */
    method PickNext(picked: seq<MsgRef>, ghost vals: seq<Msg>) returns (m: MsgRef?)
      requires Holding(picked) && Taken(vals, s.mem.ready, ready.view, ByArrival(cfg.mode))
      modifies ready, ready.contents`index
      ensures ready.contents <= old(ready.contents) && (m == null ==> ready.view == map[])
      ensures m == null ==> Holding(picked) && ready.view == old(ready.view)
      ensures m != null ==>
                && m in old(ready.contents) && m.msg == old(m.msg) && m.msg.id == m.id && Holding(picked + [m])
                && Taken(vals + [m.msg], s.mem.ready, ready.view, ByArrival(cfg.mode))
    {
      hide Holding, Taken, DistinctSeq, Keyed, Order.Less;
      m := NextReady(picked);
      if m != null {
        ReadyFacts(picked);
        TakeNext(vals, s.mem.ready, ready.view, ready.order, m.msg);
        TakeRoot(picked, m);
      }
    }

    /** Take messages off ready, first ones first, until there are n or none is left. */
    method Pick(n: nat) returns (picked: seq<MsgRef>, ghost vals: seq<Msg>)
      requires Core()
      modifies ready, ready.contents`index
      ensures Holding(picked) && Values(picked, vals)
      ensures Taken(vals, s.mem.ready, ready.view, ByArrival(cfg.mode))
      ensures |picked| <= n && (|picked| == n || ready.view == map[])
      ensures (forall m :: m in picked ==> m in old(ready.contents)) && ready.contents <= old(ready.contents)
    {
      hide Core, Holding, Taken, DistinctSeq, Keyed, Order.Less;
      picked, vals := [], [];
      HoldingNothing();
      ReadyFacts(picked);
      TakenNothing(s.mem.ready, ByArrival(cfg.mode));
      while |picked| < n
        invariant Holding(picked) && Values(picked, vals)
        invariant Taken(vals, s.mem.ready, ready.view, ByArrival(cfg.mode))
        invariant |picked| <= n
        invariant (forall m :: m in picked ==> m in old(ready.contents)) && ready.contents <= old(ready.contents)
      {
        var m := PickNext(picked, vals);
        if m == null {
          break;
        }
        picked, vals := picked + [m], vals + [m.msg];
      }
    }

    /** Hand a message to a consumer: heap and lease table. */
    method Hand(m: MsgRef, receipt: Id, expiry: Time, ghost tickets: map<Id, Id>)
      requires Shelves() && Loose(m) && Tickets(tickets) && receipt !in tickets
      modifies this`leases, inflight, m, inflight.contents`index
      ensures Shelves() && Tickets(tickets[receipt := m.id])
      ensures m.msg == old(m.msg).Leased(receipt, expiry)
      ensures inflight.view == old(inflight.view)[m.id := m.msg] && inflight.contents == old(inflight.contents) + {m}
    {
      hide MsgHeap.Valid;
      m.msg := m.msg.Leased(receipt, expiry);
      inflight.Push(m);
      leases := leases[receipt := m];
    }

    /** Hand out the first message set aside; the others stay so. */
    method HandFirst(out: seq<MsgRef>, receipt: Id, expiry: Time, ghost mem: Memory)
      requires Shelves() && Aside(out, mem.ready) && out != [] && Graves(mem.dlq)
      requires Tickets(mem.leases) && receipt !in mem.leases
      modifies this`leases, inflight, out[0], inflight.contents`index
      ensures Shelves() && Aside(out[1..], mem.ready - {out[0].id}) && Graves(mem.dlq)
      ensures Tickets(mem.leases[receipt := out[0].id])
      ensures out[0].msg == old(out[0].msg).Leased(receipt, expiry)
      ensures inflight.view == old(inflight.view)[out[0].id := out[0].msg]
      ensures inflight.contents == old(inflight.contents) + {out[0]}
      ensures inflight != ready && inflight != delayed
    {
      hide MsgHeap.Valid;
      Hand(out[0], receipt, expiry, mem.leases);
      var rest := out[1..];
      forall i | 0 <= i < |rest|
        ensures rest[i] == out[i + 1] && rest[i].id != out[0].id && rest[i] != out[0]
      {
      }
    }

    /** The step that leases one message. */
    method LeaseStep(out: seq<MsgRef>, receipt: Id, expiry: Time)
      requires Holding(out) && out != [] && receipt !in s.book.used && receipt != NO_RECEIPT && !s.disk.latched
      modifies this, inflight, out[0], inflight.contents`index
      ensures Holding(out[1..]) && run == old(run) + [Model.Lease(out[0].id, receipt, expiry)]
      ensures Enabled(old(s), Model.Lease(out[0].id, receipt, expiry))
      ensures s == Step(old(s), Model.Lease(out[0].id, receipt, expiry))
      ensures out[0].msg == old(out[0].msg).Leased(receipt, expiry)
      ensures inflight.contents == old(inflight.contents) + {out[0]}
    {
      hide MsgHeap.Valid, Step, Enabled, Legal, Final, Full, Inv, Numbered, Shelves, Graves, Tickets, Aside, Names;
      var m := out[0];
      Facts();
      FirstAside(out, s.mem.ready);
      TicketsUsed();
      LeaseEffect(s, m.id, receipt, expiry);
      NamesTail(out);
      LessAndLess(s.mem.ready, m.id, Names(out[1..]));
      HandFirst(out, receipt, expiry, s.mem);
      delivered := delivered + 1;
      Do(Model.Lease(m.id, receipt, expiry));
    }

    lemma FirstAside(out: seq<MsgRef>, from: map<Id, Msg>)
      requires Aside(out, from) && out != []
      ensures out[0].id in from && out[0].msg == from[out[0].id] && out[0].msg.id == out[0].id
    {
    }

    lemma TicketsUsed()
      requires Inv(s)
      ensures s.mem.leases.Keys <= s.book.used
    {
    }

    /** Log what the messages are about to become, before touching them. */
    method LogLeases(picked: seq<MsgRef>, receipts: seq<Id>, expiry: Time, ghost vals: seq<Msg>) returns (k: nat)
      requires wal.Valid() && Values(picked, vals) && |picked| <= |receipts|
      modifies wal
      ensures wal.Valid() && wal.failed == old(wal.failed) && k <= |picked| && (k > 0 ==> !wal.failed)
      ensures wal.Trouble() >= old(wal.Trouble()) && (wal.Untroubled() ==> k == |picked|)
      ensures wal.AtPath() == old(wal.AtPath()).(log := old(wal.AtPath()).log +
                                                      LeaseRecords(cfg.name, vals[..k], receipts, expiry))
    {
      hide WAL.Valid, WAL.AtPath;
      k := 0;
      assert old(wal.AtPath()).log + [] == old(wal.AtPath()).log;
      while k < |picked|
        invariant wal.Valid() && wal.failed == old(wal.failed) && k <= |picked| && (k > 0 ==> !wal.failed)
        invariant wal.Trouble() >= old(wal.Trouble()) && Values(picked, vals)
        invariant wal.AtPath() == old(wal.AtPath()).(log := old(wal.AtPath()).log +
                                                          LeaseRecords(cfg.name, vals[..k], receipts, expiry))
      {
        var ok := wal.Append(LeaseRecord(cfg.name, picked[k].msg.Leased(receipts[k], expiry)));
        if !ok {
          return;
        }
        OneMoreLease(cfg.name, vals, receipts, expiry, k);
        k := k + 1;
      }
    }

    /** Put one message back into ready. */
    method PutBack(m: MsgRef, rest: seq<MsgRef>)
      requires Holding([m] + rest)
      modifies ready, m`index, ready.contents`index
      ensures Holding(rest) && ready.contents == old(ready.contents) + {m}
    {
      hide MsgHeap.Valid, Legal, Final;
      ghost var out := [m] + rest;
      NamesTail(out);
      assert out[1..] == rest && out[0] == m;
      RestUnnamed(out);
      BackInPlace(s.mem.ready, m.id, Names(rest));
      ready.Push(m);
      forall i | 0 <= i < |rest|
        ensures rest[i] == out[i + 1] && rest[i].id != m.id && rest[i] != m
      {
      }
    }

    /** Put everything back exactly as it was. */
    method PutAllBack(picked: seq<MsgRef>)
      requires Holding(picked)
      modifies ready, picked, ready.contents`index
      ensures Core()
    {
      hide Holding, Core;
      var i := 0;
      assert picked[0..] == picked;
      while i < |picked|
        invariant i <= |picked| && Holding(picked[i..])
        invariant forall o :: o in ready.contents ==> o in old(ready.contents) || o in picked
      {
        assert picked[i..] == [picked[i]] + picked[i + 1..];
        PutBack(picked[i], picked[i + 1..]);
        i := i + 1;
      }
      assert picked[i..] == [];
      HoldingNothing();
    }

    lemma HoldingFirst(out: seq<MsgRef>)
      requires Holding(out) && out != []
      ensures out[0].id in s.mem.ready && out[0].msg == s.mem.ready[out[0].id] && cfg == s.mem.cfg
      ensures out[0] !in inflight.contents && (forall i :: 0 < i < |out| ==> out[i].id != out[0].id)
    {
      hide Shelves, Graves, Tickets, Reached;
    }

    /** What a batch of leases has done to the state. */
    ghost predicate Leased(s0: State, vals: seq<Msg>, receipts: seq<Id>, expiry: Time, n: nat)
      reads this`s
      requires n <= |vals| <= |receipts|
    {
      && s.mem == s0.mem.(ready := s.mem.ready, inflight := s.mem.inflight, leases := s.mem.leases,
                          delivered := s0.mem.delivered + n)
      && s.disk == s0.disk.(log := s0.disk.log + LeaseRecords(cfg.name, vals[..n], receipts, expiry))
      && s.book == s0.book.(used := s.book.used) && s.clock == s0.clock
      && (forall i :: n <= i < |receipts| ==> receipts[i] !in s.book.used)
      && (forall i :: 0 <= i < n ==>
            && vals[i].id in s.mem.inflight && s.mem.inflight[vals[i].id] == vals[i].Leased(receipts[i], expiry)
            && receipts[i] in s.mem.leases && s.mem.leases[receipts[i]] == vals[i].id)
    }

    /** One more lease of the batch. */
    method LeaseNext(out: seq<MsgRef>, i: nat, receipts: seq<Id>, expiry: Time, ghost s0: State, ghost vals: seq<Msg>)
      requires Holding(out) && out != [] && i < |vals| <= |receipts| && out[0].msg == vals[i] && out[0].id == vals[i].id
      requires NewReceipts(receipts, s0.book.used) && !s.disk.latched && Leased(s0, vals, receipts, expiry, i)
      requires forall j :: 0 <= j < i ==> vals[j].id != vals[i].id
      modifies this, inflight, out[0], inflight.contents`index
      ensures Holding(out[1..]) && Leased(s0, vals, receipts, expiry, i + 1)
      ensures out[0].msg == vals[i].Leased(receipts[i], expiry) && s.disk.latched == old(s.disk.latched)
      ensures inflight.contents == old(inflight.contents) + {out[0]}
      ensures run == old(run) + [Model.Lease(out[0].id, receipts[i], expiry)]
    {
      hide Holding, Step, Enabled;
      HoldingFirst(out);
      OneMoreLease(cfg.name, vals, receipts, expiry, i);
      LeaseEffect(s, out[0].id, receipts[i], expiry);
      LeaseStep(out, receipts[i], expiry);
    }

    /** Distinct messages that lie aside. */
    ghost predicate Row(out: seq<MsgRef>, vals: seq<Msg>)
      reads out
    {
      && Values(out, vals)
      && (forall i, j :: 0 <= i < j < |out| ==> out[i].id != out[j].id)
    }

    lemma HoldingRow(out: seq<MsgRef>, vals: seq<Msg>)
      requires Holding(out) && Values(out, vals)
      ensures Row(out, vals) && forall i :: 0 <= i < |out| ==> out[i] !in inflight.contents
    {
      hide Shelves, Graves, Tickets, Reached;
    }

    /** Commit: every message picked becomes inflight under its receipt. */
    method Commit(picked: seq<MsgRef>, receipts: seq<Id>, expiry: Time, ghost vals: seq<Msg>) returns (out: seq<Msg>)
      requires Holding(picked) && Values(picked, vals) && |picked| <= |receipts| && !s.disk.latched
      requires NewReceipts(receipts, s.book.used)
      modifies this, inflight, picked, inflight.contents`index
      ensures Core() && Leased(old(s), vals, receipts, expiry, |vals|) && s.mem.owed == old(s.mem.owed)
      ensures s.disk == old(s.disk).(log := old(s.disk).log + LeaseRecords(cfg.name, vals, receipts, expiry))
      ensures |out| == |vals| && forall i :: 0 <= i < |out| ==> out[i] == vals[i].Leased(receipts[i], expiry)
      ensures old(run) <= run && forall i :: |old(run)| <= i < |run| ==> run[i].Lease?
    {
      hide Holding, Core;
      ghost var s0 := s;
      HoldingRow(picked, vals);
      out := [];
      var i := 0;
      assert picked[0..] == picked && vals[..0] == [] && s0.disk.log + [] == s0.disk.log;
      while i < |picked|
        invariant i <= |picked| && Holding(picked[i..]) && Leased(s0, vals, receipts, expiry, i)
        invariant !s.disk.latched && |out| == i
        invariant forall j :: 0 <= j < i ==> out[j] == vals[j].Leased(receipts[j], expiry)
        invariant forall j :: i <= j < |picked| ==> picked[j].msg == vals[j]
        invariant forall o :: o in inflight.contents ==> o in old(inflight.contents) || o in picked
        invariant old(run) <= run && forall k :: |old(run)| <= k < |run| ==> run[k].Lease?
      {
        ghost var rest := picked[i..];
        assert rest[0] == picked[i] && rest[1..] == picked[i + 1..];
        LeaseNext(picked[i..], i, receipts, expiry, s0, vals);
        out := out + [picked[i].msg];
        i := i + 1;
      }
      assert picked[i..] == [] && vals[..i] == vals;
      HoldingNothing();
    }

    /** A failed batch leaves its first k lease records in the log and nothing else. */
    ghost method RollBackAll(vals: seq<Msg>, receipts: seq<Id>, expiry: Time, k: nat)
      requires Core() && k <= |vals| <= |receipts| && (k > 0 ==> !s.disk.latched)
      requires NewReceipts(receipts, s.book.used)
      requires forall i :: 0 <= i < |vals| ==> vals[i].id in s.mem.ready && s.mem.ready[vals[i].id] == vals[i]
      modifies this`s, this`run
      ensures Core() && s.mem == old(s.mem) && s.clock == old(s.clock)
      ensures s.disk == old(s.disk).(log := old(s.disk).log + LeaseRecords(cfg.name, vals[..k], receipts, expiry))
      ensures old(run) <= run && forall i :: |old(run)| <= i < |run| ==> run[i].RollBack?
    {
      hide Core, Step, Enabled;
      Cfg();
      assert old(s.disk).log + [] == old(s.disk).log;
      for i := 0 to k
        invariant Core() && s.mem == old(s.mem) && s.clock == old(s.clock) && (k > 0 ==> !s.disk.latched)
        invariant s.disk == old(s.disk).(log := old(s.disk).log + LeaseRecords(cfg.name, vals[..i], receipts, expiry))
        invariant forall j :: i <= j < |receipts| ==> receipts[j] !in s.book.used
        invariant old(run) <= run && forall j :: |old(run)| <= j < |run| ==> run[j].RollBack?
      {
        OneMoreLease(cfg.name, vals, receipts, expiry, i);
        RollBackOne(vals[i], receipts[i], expiry);
      }
    }

    ghost method RollBackOne(m: Msg, receipt: Id, expiry: Time)
      requires Core() && !s.disk.latched && m.id in s.mem.ready && s.mem.ready[m.id] == m
      requires receipt !in s.book.used && receipt != NO_RECEIPT
      modifies this`s, this`run
      ensures Core() && s.mem == old(s.mem) && s.clock == old(s.clock)
      ensures s.disk == old(s.disk).(log := old(s.disk).log + [LeaseRecord(cfg.name, m.Leased(receipt, expiry))])
      ensures s.book.used == old(s.book.used) + {receipt} && run == old(run) + [RollBack(m.id, receipt, expiry)]
    {
      hide Core, Step, Enabled;
      Cfg();
      LeaseEffect(s, m.id, receipt, expiry);
      DoQuiet(RollBack(m.id, receipt, expiry));
    }

    lemma TakenAreReady(vals: seq<Msg>, rest: map<Id, Msg>)
      requires Taken(vals, s.mem.ready, rest, ByArrival(cfg.mode))
      ensures forall i :: 0 <= i < |vals| ==> vals[i].id in s.mem.ready && s.mem.ready[vals[i].id] == vals[i]
    {
    }

    /** Picking as Pick does, in terms of the model alone. */
    method PickFirst(n: nat) returns (picked: seq<MsgRef>, ghost vals: seq<Msg>)
      requires Core()
      modifies ready, ready.contents`index
      ensures Holding(picked) && Values(picked, vals) && ready.view == s.mem.ready - IdsOf(vals)
      ensures Selects(vals, s.mem.ready, n) && |vals| <= n
      ensures forall i :: 0 <= i < |vals| ==> vals[i].id in s.mem.ready && s.mem.ready[vals[i].id] == vals[i]
      ensures forall m :: m in picked ==> m in old(ready.contents)
      ensures ready.contents <= old(ready.contents)
      ensures |picked| <= n && (picked == [] ==> Core())
    {
      hide Core, Holding, Taken, DistinctSeq, Keyed;
      picked, vals := Pick(n);
      ReadyFacts(picked);
      NamesAre(picked, vals);
      TakenAreReady(vals, ready.view);
      HoldingNothing();
    }

    /** vals is the first n messages of from in the queue's order, or all of them. */
    ghost predicate Selects(vals: seq<Msg>, from: map<Id, Msg>, n: nat) {
      && Taken(vals, from, from - IdsOf(vals), ByArrival(cfg.mode))
      && |vals| <= n && (|vals| == n || from - IdsOf(vals) == map[])
    }

    /** The second half of tryReceive: pick, log, and commit or put back. */
    method HandOut(n: nat, receipts: seq<Id>, expiry: Time)
      returns (st: Status, out: seq<Msg>, ghost vals: seq<Msg>)
      requires Core() && wal.Valid() && s.disk.latched == wal.failed
      requires |receipts| >= n && NewReceipts(receipts, s.book.used)
      modifies this, wal, ready, inflight, ready.contents, inflight.contents`index
      ensures Core() && wal.Valid() && s.disk.latched == wal.failed && (st == Done || st == LogError)
      ensures Selects(vals, old(s.mem).ready, n) && |vals| <= n
      ensures st == Done ==>
                && s.mem.ready == old(s.mem).ready - IdsOf(vals) && |out| == |vals|
                && Leased(old(s), vals, receipts, expiry, |vals|)
                && forall i :: 0 <= i < |out| ==> out[i] == vals[i].Leased(receipts[i], expiry)
      ensures wal.Trouble() >= old(wal.Trouble()) && (wal.Untroubled() ==> st == Done)
      ensures st == LogError ==> out == [] && s.mem == old(s.mem)
      ensures s.mem.owed == old(s.mem.owed) && (vals == [] ==> s == old(s))
      ensures Alike(old(s.disk), s.disk, old(wal.AtPath()), wal.AtPath()) && HandedOut(old(run), run)
    {
      hide Core, Holding, WAL.Valid, WAL.AtPath, Taken, NewReceipts, Selects, Leased, Inv, LeaseRecords, Alike;
      Cfg();
      AlikeStart(s.disk, wal.AtPath());
      ghost var disk, file := s.disk, wal.AtPath();
      var picked: seq<MsgRef>;
      picked, vals := PickFirst(n);
      out := [];
      if picked == [] {
        HoldingNothing();
        st := Done;
        NoLeases(receipts, expiry);
        return;
      }
      var k := LogLeases(picked, receipts, expiry, vals);
      AlikeLazy(disk, file, LeaseRecords(cfg.name, vals[..k], receipts, expiry));
      if k < |picked| {
        GiveBack(picked, receipts, expiry, vals, k);
        st := LogError;
      } else {
        assert vals[..k] == vals;
        out := Commit(picked, receipts, expiry, vals);
        HoldingNothing();
        st := Done;
      }
    }

    /** The way back when the log refuses: memory untouched, k records behind. */
    method GiveBack(picked: seq<MsgRef>, receipts: seq<Id>, expiry: Time, ghost vals: seq<Msg>, k: nat)
      requires Holding(picked) && k <= |vals| <= |receipts| && (k > 0 ==> !s.disk.latched)
      requires NewReceipts(receipts, s.book.used)
      requires forall i :: 0 <= i < |vals| ==> vals[i].id in s.mem.ready && s.mem.ready[vals[i].id] == vals[i]
      modifies this`s, this`run, ready, picked, ready.contents`index
      ensures Core() && s.mem == old(s.mem) && HandedOut(old(run), run)
      ensures s.disk == old(s.disk).(log := old(s.disk).log + LeaseRecords(cfg.name, vals[..k], receipts, expiry))
    {
      hide Core, Holding, NewReceipts, LeaseRecords;
      PutAllBack(picked);
      RollBackAll(vals, receipts, expiry, k);
    }

    lemma NoLeases(receipts: seq<Id>, expiry: Time)
      requires NewReceipts(receipts, s.book.used)
      ensures Leased(s, [], receipts, expiry, 0)
    {
      assert s.disk.log + [] == s.disk.log;
    }

    /** tryReceive, with the defaults Receive fills in: the first n of all eligible
        messages in the queue's order, each leased under its own receipt. When the
        log refuses a lease record nothing is handed out and memory is as the pump
        left it. Also returns the wake generation captured before pumping. */
    method TryReceive(max: int, visibility: int, receipts: seq<Id>, now: Time)
      returns (st: Status, out: seq<Msg>, gen: nat, ghost mid: State, ghost pumped: seq<Event>, ghost vals: seq<Msg>)
      requires Valid() && s.clock <= now
      requires |receipts| >= (if max <= 0 then 1 else max) && NewReceipts(receipts, s.book.used)
      modifies this, wal, ready, delayed, inflight, ready.contents, delayed.contents, inflight.contents
      ensures Valid() && gen == old(wake) && (st == Done || st == LogError)
      ensures Pumped(old(run) + Prelude(old(wal.failed), old(s.disk.latched), now), pumped, now)
      ensures HandedOut(pumped, run) && Legal(Fresh(cfg, start), pumped) && mid == Final(Fresh(cfg, start), pumped)
      ensures Pump.Settled(mid.mem, now)
      ensures ExpiriesLogged(old(run), pumped) ==> Pump.Scanned(old(s.mem), mid.mem, now)
      ensures Selects(vals, mid.mem.ready, if max <= 0 then 1 else max)
      ensures st == Done ==>
                var expiry := now + (if visibility <= 0 then cfg.visibilityTimeoutMS * 1_000_000 else visibility);
                && s.mem.ready == mid.mem.ready - IdsOf(vals) && |out| == |vals|
                && Leased(mid, vals, receipts, expiry, |vals|)
                && LeasedOut(mid.mem, out, receipts, expiry)
                && (forall i :: 0 <= i < |out| ==> out[i].visibleAt <= now)
                && (forall i, j :: 0 <= i < j < |out| ==> Precedes(cfg.mode, out[i], out[j]))
                && (forall i, id :: 0 <= i < |out| && id in s.mem.ready ==>
                      Precedes(cfg.mode, out[i], s.mem.ready[id]))
                && |out| <= (if max <= 0 then 1 else max) && (|out| < max ==> s.mem.ready == map[])
      ensures wal.Untroubled() ==> st == Done && ExpiriesLogged(old(run), pumped)
      ensures st == LogError ==> out == [] && s.mem == mid.mem
      ensures !old(s.mem.owed) ==> !s.mem.owed
      ensures st == Done && out == [] ==> s == mid && s.mem.ready == map[]
      ensures Alike(old(s.disk), s.disk, old(wal.AtPath()), wal.AtPath())
    {
      hide Core, WAL.Valid, WAL.AtPath, NewReceipts, Pump.Settled, Pump.Scanned, Alike, Leased, Selects,
           Pumped, HandedOut, ExpiriesLogged, Prelude, Legal, Final;
      gen := wake;
      Begin(now);
      ghost var begun := run;
      AdvanceLocked(now);
      mid, pumped := s, run;
      Arrived();
      PreludeExpiresNothing(old(run), begun, pumped, old(wal.failed), old(s.disk.latched), now, now);
      ghost var file := wal.AtPath();
      var n := if max <= 0 then 1 else max;
      var expiry := now + if visibility <= 0 then cfg.Visibility() else visibility;
      Visible();
      SelectsNone(s.mem.ready, n);
      st, out, vals := HandOut(n, receipts, expiry);
      SelectedVisible(vals, mid.mem.ready, n, now);
      if st == Done {
        HandedInOrder(mid, vals, out, receipts, expiry, n);
      }
      AlikeThen(old(s.disk), mid.disk, s.disk, old(wal.AtPath()), file, wal.AtPath(), old(wal.failed));
    }

    /** Each message handed out is one of memory's ready ones, one attempt further on,
        under its own receipt and until the expiry, and memory has it so. */
    ghost predicate LeasedOut(before: Memory, out: seq<Msg>, receipts: seq<Id>, expiry: Time)
      reads this`s
      requires |out| <= |receipts|
    {
      forall i :: 0 <= i < |out| ==>
        && out[i].id in before.ready && out[i].id in s.mem.inflight && s.mem.inflight[out[i].id] == out[i]
        && receipts[i] in s.mem.leases && s.mem.leases[receipts[i]] == out[i].id
        && var m := before.ready[out[i].id];
        out[i] == m.(attempts := m.attempts + 1, receipt := receipts[i], leaseExpiry := expiry)
    }

    lemma HandedInOrder(mid: State, vals: seq<Msg>, out: seq<Msg>, receipts: seq<Id>, expiry: Time, n: nat)
      requires Selects(vals, mid.mem.ready, n) && |out| == |vals| <= |receipts|
      requires s.mem.ready == mid.mem.ready - IdsOf(vals) && Leased(mid, vals, receipts, expiry, |vals|)
      requires forall i :: 0 <= i < |out| ==> out[i] == vals[i].Leased(receipts[i], expiry)
      ensures LeasedOut(mid.mem, out, receipts, expiry)
      ensures forall i, j :: 0 <= i < j < |out| ==> Precedes(cfg.mode, out[i], out[j])
      ensures forall i, id :: 0 <= i < |out| && id in s.mem.ready ==> Precedes(cfg.mode, out[i], s.mem.ready[id])
      ensures |out| <= n && (|out| == n || s.mem.ready == map[])
    {
      hide IdsOf, LeaseRecords;
      TakenInOrder(vals, mid.mem.ready, s.mem.ready, cfg.mode);
    }

    /** No message in ready is early. */
    lemma Visible()
      requires Core()
      ensures forall id :: id in s.mem.ready ==> s.mem.ready[id].visibleAt <= s.clock
    {
      hide Numbered, Durably, Inv, Header;
      Facts();
    }

    lemma SelectsNone(from: map<Id, Msg>, n: nat)
      ensures n > 0 && Selects([], from, n) ==> from == map[]
    {
      assert from - IdsOf([]) == from;
    }

    lemma SelectedVisible(vals: seq<Msg>, from: map<Id, Msg>, n: nat, now: Time)
      requires Selects(vals, from, n) && forall id :: id in from ==> from[id].visibleAt <= now
      ensures forall i :: 0 <= i < |vals| ==> vals[i].visibleAt <= now
    {
    }

    // ---------- the dead letters ----------

    /** Bring the first dead letter back to life. */
    method Revive(now: Time, ghost mem: Memory)
      requires Shelves() && dlq != [] && Graves(mem.dlq) && ready.view == mem.ready && delayed.view == mem.delayed
      requires dlq[0].id !in ready.view && dlq[0].id !in delayed.view && dlq[0].id !in inflight.view
      requires forall i :: 0 < i < |dlq| ==> mem.dlq[i].id != mem.dlq[0].id
      modifies this`dlq, dlq, ready, delayed, ready.contents`index, delayed.contents`index
      ensures Shelves() && dlq == old(dlq)[1..] && Graves(mem.dlq[1..]) && inflight != ready && inflight != delayed
      ensures var m := mem.dlq[0].(attempts := 0, visibleAt := now);
              var t := Place(mem.(dlq := mem.dlq[1..]), m, now);
              ready.view == t.ready && delayed.view == t.delayed
      ensures ready.contents + delayed.contents <= old(ready.contents + delayed.contents + set m <- dlq)
    {
      hide MsgHeap.Valid;
      var m := dlq[0];
      assert forall i :: 0 < i < |dlq| ==> dlq[i] != m;
      dlq := dlq[1..];
      m.msg := m.msg.(attempts := 0, visibleAt := now);
      Put(m, now);
    }

    lemma HeadFacts()
      requires Core() && s.mem.dlq != []
      ensures |dlq| == |s.mem.dlq| && dlq[0].msg == s.mem.dlq[0] && dlq[0].id == s.mem.dlq[0].id && cfg == s.mem.cfg
      ensures forall i :: 0 < i < |s.mem.dlq| ==> s.mem.dlq[i].id != s.mem.dlq[0].id
    {
      hide MsgHeap.Valid, Legal, Final, Full, Numbered, IdsOf;
      Facts();
    }

    /** The step that replays one dead letter. */
    method ReplayStep(now: Time)
      requires Core() && s.mem.dlq != [] && !s.disk.latched && now == s.clock
      modifies this, dlq, ready, delayed, ready.contents`index, delayed.contents`index
      ensures Core() && run == old(run) + [ReplayHead(Ok)]
      ensures Enabled(old(s), ReplayHead(Ok)) && s == Step(old(s), ReplayHead(Ok)) && dlq == old(dlq)[1..]
      ensures ready.contents + delayed.contents <= old(ready.contents + delayed.contents + set m <- dlq)
    {
      hide MsgHeap.Valid, Step, Enabled, Legal, Final, Full, Inv, Numbered, Shelves, Graves, Tickets;
      Facts();
      HeadFacts();
      ReplayEffect(s, Ok);
      ghost var mem := s.mem;
      Revive(now, mem);
      PlaceFrame(mem.(dlq := mem.dlq[1..]), mem.dlq[0].(attempts := 0, visibleAt := now), now);
      Finish(ReplayHead(Ok));
    }

    /** One round of the replay loop: log first, then revive. */
    method ReplayOne(now: Time) returns (o: Outcome)
      requires Core() && wal.Valid() && s.disk.latched == wal.failed && s.clock == now && dlq != []
      modifies this, wal, dlq, ready, delayed, ready.contents`index, delayed.contents`index
      ensures Core() && wal.Valid() && s.disk.latched == wal.failed && s.clock == now && |dlq| == |s.mem.dlq|
      ensures var rec := ReplayRecord(cfg.name, old(dlq[0].msg.id));
              s.disk == old(s.disk).Durable(rec, o) && wal.AtPath() == old(wal.AtPath()).Durable(rec, o)
      ensures wal.Trouble() >= old(wal.Trouble()) && (o == Ok <==> wal.Untroubled())
      ensures |old(s.mem).dlq| > 0
      ensures o == Ok ==> s.mem.dlq == old(s.mem).dlq[1..] && dlq == old(dlq)[1..]
      ensures o == Ok ==>
                var m := old(s.mem).dlq[0].(attempts := 0, visibleAt := now);
                s.mem.ready == old(s.mem).ready[m.id := m]
      ensures o != Ok ==> s.mem == old(s.mem) && dlq == old(dlq)
      ensures run == old(run) + [ReplayHead(o)] && Possible(old(s.disk), o)
      ensures ready.contents + delayed.contents <= old(ready.contents + delayed.contents + set m <- dlq)
    {
      hide Core, Step, Enabled, WAL.Valid, WAL.AtPath, Inv, Place, Logged;
      Cfg();
      DlqLength();
      HeadFacts();
      o := wal.AppendSync(ReplayRecord(cfg.name, dlq[0].msg.id));
      ReplayEffect(s, o);
      if o == Ok {
        ReplayOutcome(s, ReplayHead(Ok));
        PlaceFrame(s.mem.(dlq := s.mem.dlq[1..]), s.mem.dlq[0].(attempts := 0, visibleAt := now), now);
        ReplayStep(now);
      } else {
        DoQuiet(ReplayHead(o));
      }
      DlqLength();
    }

    /** ReplayDLQ: dead letters go back with their attempts reset, from the head on,
        until the log refuses. The count is right even then. */
    method ReplayDLQ(now: Time) returns (st: Status, done: nat, ghost o: Outcome)
      requires Valid() && s.clock <= now
      modifies this, wal, dlq, ready, delayed, ready.contents`index, delayed.contents`index
      ensures Valid() && Alike(old(s.disk), s.disk, old(wal.AtPath()), wal.AtPath())
      ensures done <= |old(s.mem).dlq| && s.mem.dlq == old(s.mem).dlq[done..]
      ensures st == Done ==> s.mem.dlq == []
      ensures forall i :: 0 <= i < done ==> Revived(s.mem, old(s.mem).dlq[i], now)
      ensures st == (if o == Ok then Done else LogError)
      ensures wal.Untroubled() ==> st == Done
      ensures run == old(run) + Prelude(old(wal.failed), old(s.disk.latched), now) + Heads(done)
                     + (if o == Ok then [] else [ReplayHead(o)]) + (if done > 0 then [Signal] else [])
      ensures !old(s.mem.owed) ==> !s.mem.owed
    {
      hide Core, WAL.Valid, WAL.AtPath, Alike, Heads;
      DistinctGraves();
      Begin(now);
      o := Ok;
      ghost var run0 := run;
      HeadsMore(0);
      AlikeStart(s.disk, wal.AtPath());
      ghost var s0, file0 := s, wal.AtPath();
      done := 0;
      DlqLength();
      while dlq != []
        invariant Core() && wal.Valid() && s.disk.latched == wal.failed && s.clock == now
        invariant done <= |s0.mem.dlq| && s.mem.dlq == s0.mem.dlq[done..] && |dlq| == |s.mem.dlq|
        invariant s.mem.owed ==> s0.mem.owed || done > 0
        invariant wal.Trouble() >= old(wal.Trouble()) && (wal.Untroubled() ==> !wal.failed)
        invariant forall i :: 0 <= i < done ==> Revived(s.mem, s0.mem.dlq[i], now)
        invariant run == run0 + Heads(done)
        invariant Alike(s0.disk, s.disk, file0, wal.AtPath())
        invariant done <= |old(dlq)| && dlq == old(dlq)[done..]
        invariant forall o :: o in ready.contents || o in delayed.contents ==>
                    o in old(ready.contents) || o in old(delayed.contents) || o in old(dlq)
        decreases |dlq|
      {
        ghost var disk, file, rec := s.disk, wal.AtPath(), ReplayRecord(cfg.name, dlq[0].msg.id);
        var out := ReplayOne(now);
        AlikeMore(s0.disk, disk, file0, file, rec, out);
        HeadsMore(done);
        if out != Ok {
          o := out;
          AlikeLatched(old(s.disk), s.disk, old(wal.AtPath()), wal.AtPath(), old(wal.failed));
          if done > 0 {
            SignalLocked();
          }
          return LogError, done, o;
        }
        done := done + 1;
      }
      AlikeLatched(old(s.disk), s.disk, old(wal.AtPath()), wal.AtPath(), old(wal.failed));
      if done > 0 {
        SignalLocked();
      }
      st := Done;
    }

    /** The dead letter is ready again, visible from now on, with all its attempts. */
    ghost predicate Revived(mem: Memory, m: Msg, now: Time) {
      m.id in mem.ready && mem.ready[m.id] == m.(attempts := 0, visibleAt := now)
    }

    lemma DistinctGraves()
      requires Core()
      ensures forall i, j :: 0 <= i < j < |s.mem.dlq| ==> s.mem.dlq[i].id != s.mem.dlq[j].id
    {
      hide Full, Numbered, Shelves, Shown, Graves, Tickets, Legal, Final;
      Facts();
    }

    lemma DlqLength()
      requires Core()
      ensures |dlq| == |s.mem.dlq|
    {
      hide Shelves, Shown, Tickets, Reached;
    }

    // ---------- printing and restoring ----------

    /** The heaps' values, in slot order, list every message not dead. */
    lemma KeysList()
      requires Core()
      ensures Lists(ready.keys + delayed.keys + inflight.keys, s.mem.ready, s.mem.delayed, s.mem.inflight)
    {
      Facts();
      InvPlaces(s);
      HeapLists(ready);
      HeapLists(delayed);
      HeapLists(inflight);
      hide MsgHeap.Valid, Full, Inv, Numbered, Legal, Final, IdsOf;
      ListsThree(ready.keys, delayed.keys, inflight.keys, s.mem);
    }

    /** liveRecordsLocked: a printout from which the queue can be rebuilt. */
    method LiveRecords() returns (out: seq<Record>, ghost order: seq<Msg>)
      requires Core()
      ensures Lists(order, s.mem.ready, s.mem.delayed, s.mem.inflight)
      ensures out == Recovery.LiveRecords(s.mem.cfg, s.mem.seqNo, order, s.mem.dlq)
    {
      hide Core, Inv, MsgHeap.Valid, Lists, Emit, EmitDead;
      KeysList();
      Cfg();
      HeapsShow();
      order := ready.keys + delayed.keys + inflight.keys;
      ghost var head := [CreateRecord(cfg, seqNo)];
      out := [CreateRecord(cfg, seqNo)];
      EmitNone(cfg.name);
      out := EmitItems(cfg.name, ready.items, out, [], ready.keys, head);
      assert [] + ready.keys == ready.keys;
      out := EmitItems(cfg.name, delayed.items, out, ready.keys, delayed.keys, head);
      out := EmitItems(cfg.name, inflight.items, out, ready.keys + delayed.keys, inflight.keys, head);
      out := EmitGraves(out);
    }

    lemma HeapsShow()
      requires Core()
      ensures ValuesOf(ready.items, ready.keys) && ValuesOf(delayed.items, delayed.keys)
      ensures ValuesOf(inflight.items, inflight.keys)
    {
      hide MsgHeap.Valid, Shown, Graves, Tickets, Reached;
      HeapValues(ready);
      HeapValues(delayed);
      HeapValues(inflight);
    }

    method EmitGraves(out0: seq<Record>) returns (out: seq<Record>)
      requires Core()
      ensures out == out0 + EmitDead(cfg.name, s.mem.dlq)
    {
      hide Shelves, Shown, Tickets, Reached;
      out := out0;
      assert s.mem.dlq[..0] == [] && out0 + [] == out0;
      for i := 0 to |dlq|
        invariant out == out0 + EmitDead(cfg.name, s.mem.dlq[..i])
      {
        assert s.mem.dlq[..i + 1] == s.mem.dlq[..i] + [s.mem.dlq[i]];
        EmitOne(cfg.name, s.mem.dlq[..i], s.mem.dlq[i]);
        out := out + [EnqueueRecord(cfg.name, dlq[i].msg.Unleased()), DeadRecord(cfg.name, dlq[i].msg.id)];
      }
      assert s.mem.dlq[..|dlq|] == s.mem.dlq;
    }

    /** File the recovered messages, leases wiped. */
    method FileAll(live: seq<Msg>, now: Time)
      requires Shelves() && dlq == [] && DistinctIds(live)
      requires ready.view == map[] && delayed.view == map[] && inflight.view == map[]
      modifies ready, delayed, ready.contents`index, delayed.contents`index
      ensures Shelves() && inflight != ready && inflight != delayed
      ensures ready.view == Filed(live, now, true) && delayed.view == Filed(live, now, false)
    {
      hide Shelves;
      Apart();
      for i := 0 to |live|
        invariant Shelves() && inflight.view == map[]
        invariant ready.view == Filed(live[..i], now, true) && delayed.view == Filed(live[..i], now, false)
        invariant fresh(ready.contents - old(ready.contents)) && fresh(delayed.contents - old(delayed.contents))
      {
        FileOneMore(live, i, now);
        ghost var mem := s.mem.(ready := ready.view, delayed := delayed.view, dlq := []);
        FileNew(live[i].Unleased(), now, mem);
      }
      assert live[..|live|] == live;
    }

    lemma Apart()
      requires Shelves()
      ensures ready != delayed && ready != inflight && delayed != inflight
    {
    }

    /** Line up the recovered dead letters. */
    method BuryAll(dead: seq<Msg>)
      requires dlq == []
      modifies this`dlq
      ensures |dlq| == |dead| && fresh(dlq)
      ensures forall i :: 0 <= i < |dead| ==> dlq[i].msg == dead[i].Unleased() && dlq[i].id == dlq[i].msg.id
    {
      for i := 0 to |dead|
        invariant |dlq| == i && fresh(dlq)
        invariant forall j :: 0 <= j < i ==> dlq[j].msg == dead[j].Unleased() && dlq[j].id == dlq[j].msg.id
      {
        var m := new MsgRef(dead[i].Unleased());
        dlq := dlq + [m];
      }
    }

    /** The state a restart with these recovered lists leads to. */
    ghost predicate Recovering(life: seq<Event>, keep: nat, live: seq<Msg>, dead: seq<Msg>, maxSeq: nat, now: Time) {
      && cfg.Normalized() == cfg && Legal(Fresh(cfg, start), life)
      && var t := Final(Fresh(cfg, start), life);
      && t.disk.synced <= keep <= |t.disk.Written()| && t.clock <= now
      && var r := Replayed(t.disk.Written()[..keep]);
      maxSeq == r.maxSeq && LiveList(r, live) && DeadList(r, dead)
    }

    lemma RestartEffect(life: seq<Event>, keep: nat, live: seq<Msg>, dead: seq<Msg>, maxSeq: nat, now: Time)
      requires Recovering(life, keep, live, dead, maxSeq, now)
      ensures var t := Final(Fresh(cfg, start), life);
              && Enabled(t, Restart(keep, now, Wiped(dead)))
              && Step(t, Restart(keep, now, Wiped(dead))).mem ==
                 Memory(cfg, maxSeq, Filed(live, now, true), Filed(live, now, false), map[], map[], Wiped(dead),
                        0, 0, 0, 0, 0, 0, false)
    {
      hide Full, LiveList, DeadList, Filed, IsDead, Keyed, Legal, Final, Sound;
      var t := Final(Fresh(cfg, start), life);
      FreshFull(cfg, start);
      FullRun(Fresh(cfg, start), life);
      PrefixSound(t, keep);
      FreshConfig(life);
      var log := t.disk.Written()[..keep];
      LiveIsKeyed(log);
      DeadListIsDead(Replayed(log), dead);
      SoundHasConfig(Replayed(log), t.clock);
      FiledIsRestored(Replayed(log), live, Wiped(dead), now);
    }

    /** The config never changes along a run. */
    lemma {:induction false} FreshConfig(life: seq<Event>)
      requires cfg.Normalized() == cfg && Legal(Fresh(cfg, start), life)
      ensures Final(Fresh(cfg, start), life).mem.cfg == cfg
    {
      hide Full, Step;
      FreshFull(cfg, start);
      if life != [] {
        FreshConfig(life[..|life| - 1]);
        FullRun(Fresh(cfg, start), life[..|life| - 1]);
        ConfigStays(Final(Fresh(cfg, start), life[..|life| - 1]), life[|life| - 1]);
      }
    }

    /** Fields and heaps are this memory, whatever run led here. */
    ghost predicate Installed(mem: Memory)
      reads this, ready, delayed, inflight, ready.contents, delayed.contents, inflight.contents, dlq
    {
      Shelves() && Shown(mem) && Graves(mem.dlq) && Tickets(mem.leases)
    }

    /** The memory of a queue restored from these lists. */
    ghost function FromLists(live: seq<Msg>, dead: seq<Msg>, maxSeq: nat, now: Time): Memory {
      Memory(cfg, maxSeq, Filed(live, now, true), Filed(live, now, false), map[], map[], Wiped(dead),
             0, 0, 0, 0, 0, 0, false)
    }

    /** restore: reinstall any lists of recovered messages. If life is the run that
        wrote the log they were read from, the restart becomes its next step. */
    method Restore(live: seq<Msg>, dead: seq<Msg>, maxSeq: nat, now: Time, ghost life: seq<Event>, ghost keep: nat)
      requires Core() && run == [] && DistinctIds(live)
      modifies this, ready, delayed, ready.contents`index, delayed.contents`index
      ensures Installed(FromLists(live, dead, maxSeq, now))
      ensures Recovering(life, keep, live, dead, maxSeq, now) ==>
                && Core() && run == life + [Restart(keep, now, Wiped(dead))]
                && Enabled(Final(Fresh(cfg, start), life), Restart(keep, now, Wiped(dead)))
                && s == Step(Final(Fresh(cfg, start), life), Restart(keep, now, Wiped(dead)))
    {
      hide Recovering, Legal, Final, Step, Enabled, Shelves, Shown, Graves, Tickets, Filed;
      Install(live, dead, maxSeq, now);
      if Recovering(life, keep, live, dead, maxSeq, now) {
        Rejoin(live, dead, maxSeq, now, life, keep);
      }
    }

    method Install(live: seq<Msg>, dead: seq<Msg>, maxSeq: nat, now: Time)
      requires Core() && run == [] && DistinctIds(live)
      modifies this`seqNo, this`dlq, ready, delayed, ready.contents`index, delayed.contents`index
      ensures Installed(FromLists(live, dead, maxSeq, now))
    {
      hide MsgHeap.Valid, Shelves, Legal, Final, Filed;
      Pristine();
      seqNo := maxSeq;
      FileAll(live, now);
      BuryAll(dead);
    }

    /** The queue goes on where its life's restart leads. */
    ghost method Rejoin(live: seq<Msg>, dead: seq<Msg>, maxSeq: nat, now: Time, life: seq<Event>, keep: nat)
      requires Installed(FromLists(live, dead, maxSeq, now)) && Recovering(life, keep, live, dead, maxSeq, now)
      modifies this`s, this`run
      ensures Core() && run == life + [Restart(keep, now, Wiped(dead))]
      ensures Enabled(Final(Fresh(cfg, start), life), Restart(keep, now, Wiped(dead)))
      ensures s == Step(Final(Fresh(cfg, start), life), Restart(keep, now, Wiped(dead)))
      ensures Installed(FromLists(live, dead, maxSeq, now))
    {
      hide MsgHeap.Valid, Shelves, Step, Enabled, Legal, Final, Filed, LiveList, DeadList, Full;
      RestartEffect(life, keep, live, dead, maxSeq, now);
      ghost var e := Restart(keep, now, Wiped(dead));
      OneMore(Fresh(cfg, start), life, e);
      s, run := Step(Final(Fresh(cfg, start), life), e), life + [e];
    }

    lemma Pristine()
      requires Core() && run == []
      ensures s == Fresh(cfg, start) && dlq == [] && leases == map[]
      ensures ready.view == map[] && delayed.view == map[] && inflight.view == map[]
      ensures ready != delayed && ready != inflight && delayed != inflight
    {
      hide MsgHeap.Valid;
    }

    lemma AckLogs(receipt: Id, o: Outcome)
      requires Core() && receipt in leases && Possible(s.disk, o)
      ensures Enabled(s, Model.Ack(receipt, o))
      ensures var t := Step(s, Model.Ack(receipt, o));
              && t.disk == s.disk.Durable(AckRecord(cfg.name, leases[receipt].msg.id), o)
              && (o != Ok ==> t.mem == s.mem)
    {
      hide MsgHeap.Valid, Step, Enabled, Legal, Final, Full, Inv, Numbered;
      Facts();
      LeaseFacts(s, receipt);
      CanAck(s, receipt, o);
      AckEffect(s, receipt, o);
      inflight.SlotOf(leases[receipt]);
    }

    /** Ack */
    method Ack(receipt: Id) returns (st: Status, ghost o: Outcome)
      requires Valid()
      modifies this, inflight, inflight.contents`index, wal
      ensures Valid()
      ensures receipt !in old(leases) ==> st == NoLease && s == old(s) && wal.AtPath() == old(wal.AtPath())
      ensures receipt in old(leases) ==>
                && st == (if o == Ok then Done else LogError) && (st == Done <==> wal.Untroubled())
                && Alike(old(s.disk), s.disk, old(wal.AtPath()), wal.AtPath())
                && run == old(run) + (if old(wal.failed) && !old(s.disk.latched) then [OtherLatch] else [])
                          + [Model.Ack(receipt, o)]
      ensures st == Done ==> receipt !in leases && old(leases[receipt].id) !in Held(s.mem)
    {
      hide Shelves, Shown, Graves, Reached, WAL.Valid, WAL.AtPath, Step, Enabled;
      o := Ok;
      if receipt !in leases {
        return NoLease, o;
      }
      CatchUp();
      ghost var disk, file := s.disk, wal.AtPath();
      var rec := AckRecord(cfg.name, leases[receipt].msg.id);
      var out := wal.AppendSync(rec);
      o := out;
      AlikeDurable(disk, file, rec, o);
      st := Conclude(receipt, out);
    }

    /** The part of Ack that follows its append. */
    method Conclude(receipt: Id, out: Outcome) returns (st: Status)
      requires Core() && receipt in leases && Possible(s.disk, out)
      modifies this, inflight, inflight.contents`index
      ensures Core() && st == (if out == Ok then Done else LogError) && run == old(run) + [Model.Ack(receipt, out)]
      ensures s.disk == old(s.disk).Durable(AckRecord(cfg.name, old(leases[receipt].msg.id)), out)
      ensures out == Ok ==> receipt !in leases && old(leases[receipt].id) !in Held(s.mem)
    {
      hide Core, Step, Enabled, Inv, Logged, Held;
      AckLogs(receipt, out);
      if out == Ok {
        Cfg();
        TicketLeads(receipt);
        AckOutcome(s, Model.Ack(receipt, Ok));
        AckStep(receipt);
        st := Done;
      } else {
        DoQuiet(Model.Ack(receipt, out));
        st := LogError;
      }
    }
  }

  lemma FullInv(s: State)
    requires Full(s)
    ensures Inv(s)
  {
  }
}
