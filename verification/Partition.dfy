/** Each message is in exactly one place, and the lease table is a bijection
    with the inflight messages, in every state of every run. */
module Partition {
  import opened Msgs
  import opened Recovery
  import opened Model

  ghost predicate Keyed(m: map<Id, Msg>) {
    forall id :: id in m ==> m[id].id == id
  }

  ghost predicate DistinctIds(dlq: seq<Msg>) {
    forall i, j :: 0 <= i < j < |dlq| ==> dlq[i].id != dlq[j].id
  }

  ghost function IdsOf(dlq: seq<Msg>): set<Id> {
    set m | m in dlq :: m.id
  }

  /** Every message the queue still holds. */
  ghost function Held(mem: Memory): set<Id> {
    mem.ready.Keys + mem.delayed.Keys + mem.inflight.Keys + IdsOf(mem.dlq)
  }

  ghost predicate Places(mem: Memory) {
    && Keyed(mem.ready) && Keyed(mem.delayed) && Keyed(mem.inflight) && DistinctIds(mem.dlq)
    && (forall id :: id in mem.ready ==> id !in mem.delayed && id !in mem.inflight && id !in IdsOf(mem.dlq))
    && (forall id :: id in mem.delayed ==> id !in mem.inflight && id !in IdsOf(mem.dlq))
    && (forall id :: id in mem.inflight ==> id !in IdsOf(mem.dlq))
  }

  /** Receipts and inflight messages name each other. */
  ghost predicate LeaseBijection(mem: Memory) {
    && (forall r :: r in mem.leases ==> mem.leases[r] in mem.inflight && mem.inflight[mem.leases[r]].receipt == r)
    && (forall id :: id in mem.inflight ==>
          mem.inflight[id].receipt in mem.leases && mem.leases[mem.inflight[id].receipt] == id)
  }

  /** Every message enqueued in the log has an ID from the set. */
  ghost predicate EnqueuesOnly(log: seq<Record>, ids: set<Id>) {
    forall r :: r in log && r.op == OpEnqueue && r.msg.Some? ==> r.msg.value.id in ids
  }

  ghost predicate Known(s: State) {
    && Held(s.mem) <= s.book.used
    && s.mem.leases.Keys <= s.book.used
    && s.book.dropped <= s.book.used - Held(s.mem)
    && EnqueuesOnly(s.disk.Written(), s.book.used)
  }

  /** The log is latched exactly as long as it may end in an unacknowledged record. */
  ghost predicate Tidy(d: Disk) {
    d.synced <= |d.log| && |d.extra| <= 1 && (!d.latched ==> d.extra == [])
  }

  ghost predicate Inv(s: State) {
    Places(s.mem) && LeaseBijection(s.mem) && Known(s) && Tidy(s.disk)
  }

  // ---------- lists of dead letters ----------

  lemma IdsAppend(dlq: seq<Msg>, m: Msg)
    requires DistinctIds(dlq) && m.id !in IdsOf(dlq)
    ensures IdsOf(dlq + [m]) == IdsOf(dlq) + {m.id}
    ensures DistinctIds(dlq + [m])
  {
    assert forall x :: x in dlq + [m] <==> x in dlq || x == m;
    assert forall i :: 0 <= i < |dlq| ==> dlq[i].id in IdsOf(dlq);
  }

  lemma IdsTail(dlq: seq<Msg>)
    requires DistinctIds(dlq) && dlq != []
    ensures IdsOf(dlq[1..]) == IdsOf(dlq) - {dlq[0].id}
    ensures DistinctIds(dlq[1..])
  {
    var rest := dlq[1..];
    forall id | id in IdsOf(dlq) && id != dlq[0].id
      ensures id in IdsOf(rest)
    {
      var i :| 0 <= i < |dlq| && dlq[i].id == id;
      assert rest[i - 1] == dlq[i];
    }
    forall id | id in IdsOf(rest)
      ensures id in IdsOf(dlq) && id != dlq[0].id
    {
      var i :| 0 <= i < |rest| && rest[i].id == id;
      assert dlq[i + 1] == rest[i];
    }
  }

  lemma SplitLast(order: seq<Msg>)
    requires order != [] && DistinctIds(order)
    ensures var front, m := order[..|order| - 1], order[|order| - 1];
            order == front + [m] && DistinctIds(front) && m.id !in IdsOf(front)
  {
    var front, m := order[..|order| - 1], order[|order| - 1];
    forall x | x in front
      ensures x.id != m.id
    {
      var i :| 0 <= i < |front| && front[i] == x;
      assert order[i] == x;
    }
  }

  // ---------- reading a log back ----------

  lemma {:induction false} LiveIsKeyed(log: seq<Record>)
    ensures Keyed(Replayed(log).live)
  {
    if log != [] {
      LiveIsKeyed(log[..|log| - 1]);
    }
  }

  lemma {:induction false} LiveWasEnqueued(log: seq<Record>, ids: set<Id>)
    requires EnqueuesOnly(log, ids)
    ensures Replayed(log).live.Keys <= ids
  {
    if log != [] {
      LiveWasEnqueued(log[..|log| - 1], ids);
    }
  }

  lemma DeadAreDistinct(r: Staging, dead: seq<Msg>)
    requires Keyed(r.live) && IsDead(r, dead)
    ensures DistinctIds(dead)
    ensures IdsOf(dead) == r.live.Keys * r.dlq
  {
    forall i, j | 0 <= i < j < |dead|
      ensures dead[i].id != dead[j].id
    {
      assert dead[i] in dead && dead[j] in dead;
    }
    forall id | id in r.live && id in r.dlq
      ensures id in IdsOf(dead)
    {
      assert r.live[id].Unleased() in dead;
    }
  }

  // ---------- every step keeps the invariant ----------

  lemma PlaceHolds(mem: Memory, m: Msg, now: Time)
    ensures Held(Place(mem, m, now)) == Held(mem) + {m.id}
  {
  }

  lemma PlacePlaces(mem: Memory, m: Msg, now: Time)
    requires Places(mem)
    requires m.id !in mem.ready && m.id !in mem.delayed && m.id !in mem.inflight && m.id !in IdsOf(mem.dlq)
    ensures Places(Place(mem, m, now))
  {
    hide IdsOf, DistinctIds;
  }

  lemma PlaceKeeps(mem: Memory, m: Msg, now: Time)
    requires Places(mem) && LeaseBijection(mem) && m.id !in Held(mem)
    ensures Places(Place(mem, m, now)) && LeaseBijection(Place(mem, m, now))
    ensures Place(mem, m, now).leases == mem.leases && Place(mem, m, now).cfg == mem.cfg
    ensures Held(Place(mem, m, now)) == Held(mem) + {m.id}
  {
    hide Places;
    PlaceHolds(mem, m, now);
    PlacePlaces(mem, m, now);
  }

  lemma EndLeaseKeeps(mem: Memory, m: Msg)
    requires Places(mem) && LeaseBijection(mem)
    requires m.id in mem.inflight && mem.inflight[m.id] == m
    ensures Places(EndLease(mem, m)) && LeaseBijection(EndLease(mem, m))
    ensures Held(EndLease(mem, m)) == Held(mem) - {m.id}
  {
  }

  lemma DeadKeeps(mem: Memory, m: Msg)
    requires Places(mem) && LeaseBijection(mem) && m.id !in Held(mem)
    ensures Places(mem.(dlq := mem.dlq + [m])) && LeaseBijection(mem.(dlq := mem.dlq + [m]))
    ensures Held(mem.(dlq := mem.dlq + [m])) == Held(mem) + {m.id}
  {
    IdsAppend(mem.dlq, m);
    hide IdsOf, DistinctIds;
  }

  /** A durable append adds at most its record to what the file holds. */
  lemma DurableKeeps(d: Disk, rec: Record, o: Outcome, ids: set<Id>)
    requires Tidy(d) && Possible(d, o) && EnqueuesOnly(d.Written(), ids)
    requires rec.op == OpEnqueue && rec.msg.Some? ==> rec.msg.value.id in ids
    ensures Tidy(d.Durable(rec, o)) && EnqueuesOnly(d.Durable(rec, o).Written(), ids)
  {
    assert forall r :: r in d.Durable(rec, o).Written() ==> r in d.Written() || r == rec;
  }

  lemma LazyKeeps(d: Disk, rec: Record, ids: set<Id>)
    requires Tidy(d) && EnqueuesOnly(d.Written(), ids) && rec.op == OpLease
    ensures Tidy(d.Lazy(rec)) && EnqueuesOnly(d.Lazy(rec).Written(), ids)
  {
    assert forall r :: r in d.Lazy(rec).Written() ==> r in d.Written() || r == rec;
  }

  lemma RetryKeeps(s: State, m: Msg, now: Time, delay: int, o: Outcome)
    requires Inv(s) && Possible(s.disk, o)
    requires m.id in s.book.used - s.book.dropped - Held(s.mem)
    ensures Inv(Retry(s, m, now, delay, o))
  {
    hide Place, Places, LeaseBijection, Held, IdsOf, DistinctIds, EnqueuesOnly;
    var name := s.mem.cfg.name;
    if s.mem.cfg.Exhausted(m) {
      DurableKeeps(s.disk, DeadRecord(name, m.id), o, s.book.used);
      if o == Ok {
        DeadKeeps(s.mem, m);
      } else {
        PlaceKeeps(s.mem, m.(visibleAt := now), now);
      }
    } else {
      var back := m.(visibleAt := now + delay);
      DurableKeeps(s.disk, NackRecord(name, back), o, s.book.used);
      if o == Ok {
        PlaceKeeps(s.mem, back, now);
      }
    }
  }

  lemma EnqueueKeeps(s: State, e: Event)
    requires Inv(s) && e.Enqueue? && Enabled(s, e)
    ensures Inv(EnqueueStep(s, e))
  {
    var m := NewMsg(s, e);
    DurableKeeps(s.disk, EnqueueRecord(s.mem.cfg.name, m), e.o, s.book.used + {e.id});
    PlaceKeeps(s.mem.(seqNo := m.seqNo), m, s.clock);
  }

  lemma LeaseMoves(s: State, e: Event)
    requires Places(s.mem) && LeaseBijection(s.mem) && e.Lease? && e.id in s.mem.ready && e.receipt !in s.mem.leases
    ensures Places(LeaseStep(s, e).mem) && LeaseBijection(LeaseStep(s, e).mem)
  {
    LeasePlaces(s, e);
    LeaseTickets(s, e);
    hide Places, LeaseBijection;
  }

  lemma LeasePlaces(s: State, e: Event)
    requires Places(s.mem) && e.Lease? && e.id in s.mem.ready
    ensures Places(LeaseStep(s, e).mem)
  {
    hide IdsOf, DistinctIds;
  }

  lemma LeaseTickets(s: State, e: Event)
    requires Places(s.mem) && LeaseBijection(s.mem) && e.Lease? && e.id in s.mem.ready && e.receipt !in s.mem.leases
    ensures LeaseBijection(LeaseStep(s, e).mem)
  {
    hide IdsOf, DistinctIds;
  }

  lemma LeaseHolds(s: State, e: Event)
    requires e.Lease? && e.id in s.mem.ready
    ensures Held(LeaseStep(s, e).mem) == Held(s.mem)
  {
    hide IdsOf;
  }

  lemma LeaseKeeps(s: State, e: Event)
    requires Inv(s) && e.Lease? && e.id in s.mem.ready && e.receipt !in s.book.used
    ensures Inv(LeaseStep(s, e))
  {
    hide Places, LeaseBijection, Held, EnqueuesOnly;
    LeaseMoves(s, e);
    LeaseHolds(s, e);
    LazyKeeps(s.disk, LeaseRecord(s.mem.cfg.name, s.mem.ready[e.id].Leased(e.receipt, e.expiry)), s.book.used);
    WiderKeeps(s.disk.Lazy(LeaseRecord(s.mem.cfg.name, s.mem.ready[e.id].Leased(e.receipt, e.expiry))).Written(),
               s.book.used, LeaseStep(s, e).book.used);
  }

  lemma WiderKeeps(log: seq<Record>, ids: set<Id>, wider: set<Id>)
    requires EnqueuesOnly(log, ids) && ids <= wider
    ensures EnqueuesOnly(log, wider)
  {
  }

  /** The state in which a lease has ended and its message awaits Retry. */
  lemma EndedKeeps(s: State, id: Id, mem: Memory)
    requires Inv(s) && id in s.mem.inflight
    requires mem == EndLease(s.mem, s.mem.inflight[id]).(nacked := mem.nacked, expired := mem.expired)
    ensures Inv(s.(mem := mem)) && s.mem.inflight[id].id == id
    ensures id in s.book.used - s.book.dropped - Held(mem)
  {
    EndLeaseKeeps(s.mem, s.mem.inflight[id]);
    assert Held(mem) == Held(s.mem) - {id};
  }

  lemma NackKeeps(s: State, e: Event)
    requires Inv(s) && e.Nack? && Leases(s.mem, e.receipt) && Possible(s.disk, e.o)
    ensures Inv(NackStep(s, e))
  {
    hide Retry, EndLease, Inv, Held;
    var id := s.mem.leases[e.receipt];
    var m := s.mem.inflight[id];
    var mem := EndLease(s.mem, m).(nacked := s.mem.nacked + 1);
    EndedKeeps(s, id, mem);
    RetryKeeps(s.(mem := mem), m.Unleased(), s.clock, e.delay, e.o);
  }

  lemma ExpireKeeps(s: State, e: Event)
    requires Inv(s) && e.Expire? && e.id in s.mem.inflight && Possible(s.disk, e.o)
    ensures Inv(ExpireStep(s, e))
  {
    hide Retry, EndLease, Inv, Held;
    var m := s.mem.inflight[e.id];
    var mem := EndLease(s.mem, m).(expired := s.mem.expired + 1);
    EndedKeeps(s, e.id, mem);
    RetryKeeps(s.(mem := mem), m.Unleased(), e.now, 0, e.o);
  }

  lemma PromoteKeeps(s: State, e: Event)
    requires Inv(s) && e.Promote? && Enabled(s, e)
    ensures Inv(Step(s, e)) && Held(Step(s, e).mem) == Held(s.mem)
  {
    PromotePlaces(s, e);
    hide IdsOf, EnqueuesOnly, Places;
  }

  lemma PromotePlaces(s: State, e: Event)
    requires Places(s.mem) && e.Promote? && Enabled(s, e)
    ensures Places(Step(s, e).mem)
  {
    hide IdsOf, DistinctIds;
  }

  lemma RollBackKeeps(s: State, e: Event)
    requires Inv(s) && e.RollBack? && e.id in s.mem.ready
    ensures Inv(RollBackStep(s, e))
  {
    hide Places, LeaseBijection, Held, EnqueuesOnly;
    var rec := LeaseRecord(s.mem.cfg.name, s.mem.ready[e.id].Leased(e.receipt, e.expiry));
    LazyKeeps(s.disk, rec, s.book.used);
    WiderKeeps(s.disk.Lazy(rec).Written(), s.book.used, RollBackStep(s, e).book.used);
  }

  lemma ExtendKeeps(s: State, e: Event)
    requires Inv(s) && e.Extend? && Leases(s.mem, e.receipt)
    ensures Inv(ExtendStep(s, e))
  {
    hide EnqueuesOnly;
    assert Held(ExtendStep(s, e).mem) == Held(s.mem);
  }

  lemma AckKeeps(s: State, e: Event)
    requires Inv(s) && e.Ack? && Enabled(s, e)
    ensures Inv(AckStep(s, e))
  {
    var m := s.mem.inflight[s.mem.leases[e.receipt]];
    DurableKeeps(s.disk, AckRecord(s.mem.cfg.name, m.id), e.o, s.book.used);
    EndLeaseKeeps(s.mem, m);
  }

  lemma HeadLeaves(mem: Memory)
    requires Places(mem) && LeaseBijection(mem) && mem.dlq != []
    ensures Places(mem.(dlq := mem.dlq[1..])) && LeaseBijection(mem.(dlq := mem.dlq[1..]))
    ensures Held(mem.(dlq := mem.dlq[1..])) == Held(mem) - {mem.dlq[0].id} && mem.dlq[0].id in Held(mem)
  {
    IdsTail(mem.dlq);
    assert mem.dlq[0] in mem.dlq;
    hide DistinctIds;
  }

  lemma ReplayKeeps(s: State, e: Event)
    requires Inv(s) && e.ReplayHead? && s.mem.dlq != [] && Possible(s.disk, e.o)
    ensures Inv(ReplayStep(s, e))
  {
    hide Place, Places, LeaseBijection, Held, EnqueuesOnly;
    var m := s.mem.dlq[0];
    DurableKeeps(s.disk, ReplayRecord(s.mem.cfg.name, m.id), e.o, s.book.used);
    HeadLeaves(s.mem);
    PlaceKeeps(s.mem.(dlq := s.mem.dlq[1..]), m.(attempts := 0, visibleAt := s.clock), s.clock);
  }

  lemma RestartKeeps(s: State, e: Event)
    requires Inv(s) && e.Restart? && Enabled(s, e)
    ensures Inv(RestartStep(s, e))
  {
    var log := s.disk.Written()[..e.keep];
    LiveIsKeyed(log);
    LiveWasEnqueued(log, s.book.used);
    DeadAreDistinct(Replayed(log), e.dead);
    assert log + [] == log;
  }

  lemma {:induction false} EmitIds(name: string, order: seq<Msg>, ids: set<Id>)
    requires forall m :: m in order ==> m.id in ids
    ensures EnqueuesOnly(Emit(name, order), ids)
    ensures EnqueuesOnly(EmitDead(name, order), ids)
  {
    if order != [] {
      EmitIds(name, order[..|order| - 1], ids);
      assert order[|order| - 1] in order;
    }
  }

  lemma CompactKeeps(s: State, e: Event)
    requires Inv(s) && e.Compact? && Enabled(s, e)
    ensures Inv(CompactStep(s, e))
  {
    EmitIds(s.mem.cfg.name, e.order, s.book.used);
    EmitIds(s.mem.cfg.name, s.mem.dlq, s.book.used);
    var log := LiveRecords(s.mem.cfg, s.mem.seqNo, e.order, s.mem.dlq);
    assert log + [] == log;
  }

  lemma StepKeeps(s: State, e: Event)
    requires Inv(s) && Enabled(s, e)
    ensures Inv(Step(s, e))
  {
    match e
    case Enqueue(_, _, _, _, _) => EnqueueKeeps(s, e);
    case Promote(_, _) => PromoteKeeps(s, e);
    case Expire(_, _, _) => ExpireKeeps(s, e);
    case Lease(_, _, _) => LeaseKeeps(s, e);
    case RollBack(_, _, _) => RollBackKeeps(s, e);
    case Ack(_, _) => AckKeeps(s, e);
    case Extend(_, _) => ExtendKeeps(s, e);
    case Nack(_, _, _) => NackKeeps(s, e);
    case ReplayHead(_) => ReplayKeeps(s, e);
    case Compact(_) => CompactKeeps(s, e);
    case Restart(_, _, _) => RestartKeeps(s, e);
    case _ =>
  }

  lemma FreshHolds(cfg: Config, clock: Time)
    ensures Inv(Fresh(cfg, clock))
  {
  }

  /** The invariant holds in every state of every run. */
  lemma {:induction false} RunKeeps(init: State, run: seq<Event>)
    requires Inv(init) && Legal(init, run)
    ensures Inv(Final(init, run))
  {
    if run != [] {
      RunKeeps(init, run[..|run| - 1]);
      StepKeeps(Final(init, run[..|run| - 1]), run[|run| - 1]);
    }
  }
}
