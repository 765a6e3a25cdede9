/** The attempt limit holds over whole runs. */
module DeadLetters {
  import opened Msgs
  import opened Recovery
  import opened Model
  import opened Partition
  import opened Restarts

  /** Each restart and each failed OpDLQ append can cost one extra delivery. */
  ghost function Limit(s: State): int {
    s.mem.cfg.maxAttempts + s.book.restarts + s.book.deadFaults
  }

  ghost predicate AtMost(h: map<Id, Msg>, n: int) {
    forall id :: id in h ==> h[id].attempts <= n
  }

  ghost predicate LogAtMost(log: seq<Record>, n: int) {
    forall rec :: rec in log && rec.msg.Some? ==> rec.msg.value.attempts <= n
  }

  /** Messages that may be delivered again are strictly below the limit. */
  ghost predicate Limited(s: State) {
    s.mem.cfg.maxAttempts > 0 ==>
      && AtMost(s.mem.ready, Limit(s) - 1) && AtMost(s.mem.delayed, Limit(s) - 1)
      && AtMost(s.mem.inflight, Limit(s))
      && (forall m :: m in s.mem.dlq ==> m.attempts <= Limit(s))
      && LogAtMost(s.disk.Written(), Limit(s))
  }

  lemma {:induction false} LiveAtMost(log: seq<Record>, n: int)
    requires LogAtMost(log, n) && 0 <= n
    ensures AtMost(Replayed(log).live, n)
  {
    if log != [] {
      var front, rec := log[..|log| - 1], log[|log| - 1];
      assert rec in log && forall r :: r in front ==> r in log;
      LiveAtMost(front, n);
    }
  }

  lemma DurableAtMost(d: Disk, rec: Record, o: Outcome, n: int)
    requires LogAtMost(d.Written(), n) && (rec.msg.Some? ==> rec.msg.value.attempts <= n)
    ensures LogAtMost(d.Durable(rec, o).Written(), n)
  {
    assert forall r :: r in d.Durable(rec, o).Written() ==> r in d.Written() || r == rec;
  }

  lemma LazyAtMost(d: Disk, rec: Record, n: int)
    requires LogAtMost(d.Written(), n) && (rec.msg.Some? ==> rec.msg.value.attempts <= n)
    ensures LogAtMost(d.Lazy(rec).Written(), n)
  {
    assert forall r :: r in d.Lazy(rec).Written() ==> r in d.Written() || r == rec;
  }

  lemma LogAtMostMore(log: seq<Record>, n: int, more: int)
    requires LogAtMost(log, n) && n <= more
    ensures LogAtMost(log, more)
  {
  }

  lemma PlaceAtMost(mem: Memory, m: Msg, now: Time, n: int)
    requires AtMost(mem.ready, n) && AtMost(mem.delayed, n) && m.attempts <= n
    ensures AtMost(Place(mem, m, now).ready, n) && AtMost(Place(mem, m, now).delayed, n)
  {
  }

  lemma AtMostMore(h: map<Id, Msg>, n: int, more: int)
    requires AtMost(h, n) && n <= more
    ensures AtMost(h, more)
  {
  }

  /** After a failed OpDLQ append the limit is one higher. */
  lemma DeadFaultLimited(s: State, m: Msg, now: Time, delay: int, o: Outcome)
    requires Limited(s) && m.attempts <= Limit(s) && s.mem.cfg.Exhausted(m) && o != Ok
    ensures Limited(Retry(s, m, now, delay, o))
  {
    hide LogAtMost, AtMost, Place;
    var rec, back := DeadRecord(s.mem.cfg.name, m.id), m.(visibleAt := now);
    DurableAtMost(s.disk, rec, o, Limit(s));
    LogAtMostMore(s.disk.Durable(rec, o).Written(), Limit(s), Limit(s) + 1);
    AtMostMore(s.mem.ready, Limit(s) - 1, Limit(s));
    AtMostMore(s.mem.delayed, Limit(s) - 1, Limit(s));
    AtMostMore(s.mem.inflight, Limit(s), Limit(s) + 1);
    PlaceAtMost(s.mem, back, now, Limit(s));
    PlaceFrame(s.mem, back, now);
  }

  lemma RetryLimited(s: State, m: Msg, now: Time, delay: int, o: Outcome)
    requires Limited(s) && m.attempts <= Limit(s)
    ensures Limited(Retry(s, m, now, delay, o))
  {
    hide LogAtMost, AtMost, Place;
    var back := m.(visibleAt := now + delay);
    if s.mem.cfg.Exhausted(m) && o != Ok {
      DeadFaultLimited(s, m, now, delay, o);
    } else if s.mem.cfg.Exhausted(m) {
      DurableAtMost(s.disk, DeadRecord(s.mem.cfg.name, m.id), o, Limit(s));
    } else {
      PlaceFrame(s.mem, back, now);
      if s.mem.cfg.maxAttempts > 0 {
        DurableAtMost(s.disk, NackRecord(s.mem.cfg.name, back), o, Limit(s));
        PlaceAtMost(s.mem, back, now, Limit(s) - 1);
      }
    }
  }

  lemma NackLimited(s: State, e: Event)
    requires Limited(s) && e.Nack? && Leases(s.mem, e.receipt)
    ensures Limited(NackStep(s, e))
  {
    hide Retry, LogAtMost;
    var m := s.mem.inflight[s.mem.leases[e.receipt]];
    var t := s.(mem := EndLease(s.mem, m).(nacked := s.mem.nacked + 1));
    if s.mem.cfg.maxAttempts > 0 {
      RetryLimited(t, m.Unleased(), s.clock, e.delay, e.o);
    } else {
      RetryFrame(t, m.Unleased(), s.clock, e.delay, e.o);
    }
  }

  lemma ExpireLimited(s: State, e: Event)
    requires Limited(s) && e.Expire? && e.id in s.mem.inflight
    ensures Limited(ExpireStep(s, e))
  {
    hide Retry, LogAtMost;
    var m := s.mem.inflight[e.id];
    var t := s.(mem := EndLease(s.mem, m).(expired := s.mem.expired + 1));
    if s.mem.cfg.maxAttempts > 0 {
      RetryLimited(t, m.Unleased(), e.now, 0, e.o);
    } else {
      RetryFrame(t, m.Unleased(), e.now, 0, e.o);
    }
  }

  lemma EnqueueLimited(s: State, e: Event)
    requires Limited(s) && e.Enqueue?
    ensures Limited(EnqueueStep(s, e))
  {
    hide LogAtMost, AtMost, Place;
    var mem := s.mem.(seqNo := NewMsg(s, e).seqNo);
    PlaceFrame(mem, NewMsg(s, e), s.clock);
    if s.mem.cfg.maxAttempts > 0 {
      DurableAtMost(s.disk, EnqueueRecord(s.mem.cfg.name, NewMsg(s, e)), e.o, Limit(s));
      PlaceAtMost(mem, NewMsg(s, e), s.clock, Limit(s) - 1);
    }
  }

  lemma LeaseLimited(s: State, e: Event)
    requires Limited(s) && (e.Lease? || e.RollBack?) && e.id in s.mem.ready
    ensures e.Lease? ==> Limited(LeaseStep(s, e))
    ensures e.RollBack? ==> Limited(RollBackStep(s, e))
  {
    hide LogAtMost;
    var m := s.mem.ready[e.id].Leased(e.receipt, e.expiry);
    if s.mem.cfg.maxAttempts > 0 {
      LazyAtMost(s.disk, LeaseRecord(s.mem.cfg.name, m), Limit(s));
    }
  }

  lemma AckLimited(s: State, e: Event)
    requires Limited(s) && e.Ack? && Leases(s.mem, e.receipt)
    ensures Limited(AckStep(s, e))
  {
    hide LogAtMost;
    var m := s.mem.inflight[s.mem.leases[e.receipt]];
    if s.mem.cfg.maxAttempts > 0 {
      DurableAtMost(s.disk, AckRecord(s.mem.cfg.name, m.id), e.o, Limit(s));
    }
  }

  lemma ReplayLimited(s: State, e: Event)
    requires Limited(s) && e.ReplayHead? && s.mem.dlq != []
    ensures Limited(ReplayStep(s, e))
  {
    hide LogAtMost;
    if s.mem.cfg.maxAttempts > 0 {
      DurableAtMost(s.disk, ReplayRecord(s.mem.cfg.name, s.mem.dlq[0].id), e.o, Limit(s));
    }
  }

  lemma {:induction false} EmitAtMost(name: string, order: seq<Msg>, n: int)
    requires forall m :: m in order ==> m.attempts <= n
    ensures LogAtMost(Emit(name, order), n) && LogAtMost(EmitDead(name, order), n)
  {
    if order != [] {
      var front, last := order[..|order| - 1], order[|order| - 1];
      assert last in order && forall m :: m in front ==> m in order;
      EmitAtMost(name, front, n);
    }
  }

  lemma CompactLimited(s: State, e: Event)
    requires Limited(s) && e.Compact? && Enabled(s, e)
    ensures Limited(CompactStep(s, e))
  {
    if s.mem.cfg.maxAttempts > 0 {
      EmitAtMost(s.mem.cfg.name, e.order, Limit(s));
      EmitAtMost(s.mem.cfg.name, s.mem.dlq, Limit(s));
    }
  }

  lemma RestartLimited(s: State, e: Event)
    requires Full(s) && Limited(s) && e.Restart? && Enabled(s, e)
    ensures Limited(RestartStep(s, e))
  {
    hide Full, Sound;
    PrefixSound(s, e.keep);
    var log := s.disk.Written()[..e.keep];
    if s.mem.cfg.maxAttempts > 0 {
      assert forall rec :: rec in log ==> rec in s.disk.Written();
      LiveAtMost(log, Limit(s));
      assert log + [] == log;
    }
  }

  lemma LimitedStep(s: State, e: Event)
    requires Full(s) && Limited(s) && Enabled(s, e)
    ensures Limited(Step(s, e))
  {
    hide Full;
    match e
    case Enqueue(_, _, _, _, _) => EnqueueLimited(s, e);
    case Expire(_, _, _) => ExpireLimited(s, e);
    case Lease(_, _, _) => LeaseLimited(s, e);
    case RollBack(_, _, _) => LeaseLimited(s, e);
    case Ack(_, _) => AckLimited(s, e);
    case Nack(_, _, _) => NackLimited(s, e);
    case ReplayHead(_) => ReplayLimited(s, e);
    case Compact(_) => CompactLimited(s, e);
    case Restart(_, _, _) => RestartLimited(s, e);
    case _ =>
  }

  /** The config of a queue never changes. */
  lemma ConfigStays(s: State, e: Event)
    requires Full(s) && Enabled(s, e)
    ensures Step(s, e).mem.cfg == s.mem.cfg
  {
    hide Full, Retry;
    match e
    case Restart(keep, _, _) => PrefixSound(s, keep);
    case Nack(receipt, delay, o) =>
      var m := s.mem.inflight[s.mem.leases[receipt]];
      RetryFrame(s.(mem := EndLease(s.mem, m).(nacked := s.mem.nacked + 1)), m.Unleased(), s.clock, delay, o);
    case Expire(id, now, o) =>
      var m := s.mem.inflight[id];
      RetryFrame(s.(mem := EndLease(s.mem, m).(expired := s.mem.expired + 1)), m.Unleased(), now, 0, o);
    case _ =>
  }

  /** With a positive MaxAttempts, in every state of every run: no message has more
      attempts than MaxAttempts plus the restarts and the failed OpDLQ appends so
      far, and the ones waiting for delivery have strictly fewer. */
  lemma {:induction false} AttemptsAreLimited(cfg: Config, start: Time, run: seq<Event>)
    requires cfg.Normalized() == cfg && Legal(Fresh(cfg, start), run)
    ensures Limited(Final(Fresh(cfg, start), run)) && Final(Fresh(cfg, start), run).mem.cfg == cfg
  {
    hide Full, Step;
    FreshFull(cfg, start);
    if run != [] {
      AttemptsAreLimited(cfg, start, run[..|run| - 1]);
      FullRun(Fresh(cfg, start), run[..|run| - 1]);
      LimitedStep(Final(Fresh(cfg, start), run[..|run| - 1]), run[|run| - 1]);
      ConfigStays(Final(Fresh(cfg, start), run[..|run| - 1]), run[|run| - 1]);
    }
  }

  // ---------- deliveries, counted on the run ----------

  /** How often the run has delivered a message since it was enqueued or last
      replayed from the dead letter queue. */
  ghost function Deliveries(init: State, run: seq<Event>, id: Id): nat
    requires Legal(init, run)
  {
    if run == [] then 0 else
      var e, s := run[|run| - 1], Final(init, run[..|run| - 1]);
      if e.Lease? && e.id == id then Deliveries(init, run[..|run| - 1], id) + 1
      else if e.Enqueue? && e.id == id then 0
      else if e.ReplayHead? && e.o == Ok && s.mem.dlq[0].id == id then 0
      else Deliveries(init, run[..|run| - 1], id)
  }

  /** Wherever the message is, its attempts are n. */
  ghost predicate Counts(mem: Memory, id: Id, n: int) {
    && (id in mem.ready ==> mem.ready[id].attempts == n)
    && (id in mem.delayed ==> mem.delayed[id].attempts == n)
    && (id in mem.inflight ==> mem.inflight[id].attempts == n)
    && (forall m :: m in mem.dlq && m.id == id ==> m.attempts == n)
  }

  /** The deliveries after one more event. */
  ghost function Next(s: State, e: Event, id: Id, n: int): int
    requires Enabled(s, e)
  {
    if e.Lease? && e.id == id then n + 1
    else if e.Enqueue? && e.id == id then 0
    else if e.ReplayHead? && e.o == Ok && s.mem.dlq[0].id == id then 0
    else n
  }

  lemma PlaceAttempts(mem: Memory, m: Msg, now: Time, id: Id, n: int)
    requires Counts(mem, id, n) && (m.id == id ==> m.attempts == n)
    ensures Counts(Place(mem, m, now), id, n)
  {
  }

  lemma RetryCounts(s: State, m: Msg, now: Time, delay: int, o: Outcome, id: Id, n: int)
    requires Counts(s.mem, id, n) && (m.id == id ==> m.attempts == n)
    ensures Counts(Retry(s, m, now, delay, o).mem, id, n)
  {
    hide Place;
    PlaceAttempts(s.mem, m.(visibleAt := now), now, id, n);
    PlaceAttempts(s.mem, m.(visibleAt := now + delay), now, id, n);
  }

  lemma EndingCounts(s: State, e: Event, id: Id, n: int)
    requires Places(s.mem) && Enabled(s, e) && (e.Nack? || e.Expire?) && Counts(s.mem, id, n)
    ensures Counts(Step(s, e).mem, id, n)
  {
    hide Retry, IdsOf, DistinctIds;
    var m := s.mem.inflight[if e.Nack? then s.mem.leases[e.receipt] else e.id];
    if e.Nack? {
      RetryCounts(s.(mem := EndLease(s.mem, m).(nacked := s.mem.nacked + 1)), m.Unleased(), s.clock, e.delay, e.o,
                  id, n);
    } else {
      RetryCounts(s.(mem := EndLease(s.mem, m).(expired := s.mem.expired + 1)), m.Unleased(), e.now, 0, e.o, id, n);
    }
  }

  lemma ReplayCounts(s: State, e: Event, id: Id, n: int)
    requires Places(s.mem) && Enabled(s, e) && e.ReplayHead? && Counts(s.mem, id, n)
    ensures Counts(Step(s, e).mem, id, Next(s, e, id, n))
  {
    if e.o == Ok {
      var m, rest := s.mem.dlq[0], s.mem.(dlq := s.mem.dlq[1..]);
      IdsTail(s.mem.dlq);
      assert m in s.mem.dlq;
      assert forall x :: x in rest.dlq ==> x in s.mem.dlq && x.id in IdsOf(rest.dlq);
      PlaceAttempts(rest, m.(attempts := 0, visibleAt := s.clock), s.clock, id, Next(s, e, id, n));
    }
  }

  lemma NotHeldCounts(mem: Memory, id: Id, n: int)
    requires id !in Held(mem)
    ensures Counts(mem, id, n)
  {
    assert forall m :: m in mem.dlq ==> m.id in IdsOf(mem.dlq);
  }

  lemma EnqueueCounts(s: State, e: Event, id: Id, n: int)
    requires Known(s) && Enabled(s, e) && e.Enqueue? && Counts(s.mem, id, n)
    ensures Counts(Step(s, e).mem, id, Next(s, e, id, n))
  {
    hide EnqueuesOnly, Held, Place;
    var mem := s.mem.(seqNo := s.mem.seqNo + 1);
    if e.id == id {
      NotHeldCounts(s.mem, id, 0);
    }
    PlaceAttempts(mem, NewMsg(s, e), s.clock, id, Next(s, e, id, n));
  }

  lemma CountsStep(s: State, e: Event, id: Id, n: int)
    requires Inv(s) && Enabled(s, e) && !e.Restart? && Counts(s.mem, id, n)
    ensures Counts(Step(s, e).mem, id, Next(s, e, id, n))
  {
    match e
    case Enqueue(_, _, _, _, _) => EnqueueCounts(s, e, id, n);
    case Expire(_, _, _) => EndingCounts(s, e, id, n);
    case Nack(_, _, _) => EndingCounts(s, e, id, n);
    case ReplayHead(_) => ReplayCounts(s, e, id, n);
    case _ => MovesCount(s, e, id, n);
  }

  lemma MovesCount(s: State, e: Event, id: Id, n: int)
    requires Places(s.mem) && Enabled(s, e) && Counts(s.mem, id, n)
    requires !e.Restart? && !e.Enqueue? && !e.Expire? && !e.Nack? && !e.ReplayHead?
    ensures Counts(Step(s, e).mem, id, Next(s, e, id, n))
  {
    hide DistinctIds;
    assert forall m :: m in s.mem.dlq ==> m.id in IdsOf(s.mem.dlq);
  }

  /** Attempts are deliveries: in a run without restarts, failed appends or not. */
  lemma {:induction false} AttemptsAreDeliveries(cfg: Config, start: Time, run: seq<Event>, id: Id)
    requires Legal(Fresh(cfg, start), run) && forall i :: 0 <= i < |run| ==> !run[i].Restart?
    ensures Counts(Final(Fresh(cfg, start), run).mem, id, Deliveries(Fresh(cfg, start), run, id))
  {
    hide Inv, Step, Counts;
    if run != [] {
      var front := run[..|run| - 1];
      AttemptsAreDeliveries(cfg, start, front, id);
      FreshHolds(cfg, start);
      RunKeeps(Fresh(cfg, start), front);
      CountsStep(Final(Fresh(cfg, start), front), run[|run| - 1], id, Deliveries(Fresh(cfg, start), front, id));
    } else {
      NothingCounts(Fresh(cfg, start).mem, id);
    }
  }

  lemma NothingCounts(mem: Memory, id: Id)
    requires mem.ready == map[] && mem.delayed == map[] && mem.inflight == map[] && mem.dlq == []
    ensures Counts(mem, id, 0)
  {
  }

  lemma FaultsGrow(s: State, e: Event)
    requires Enabled(s, e)
    ensures s.book.deadFaults <= Step(s, e).book.deadFaults
    ensures Step(s, e).book.restarts == s.book.restarts + (if e.Restart? then 1 else 0)
  {
    hide Place, EndLease, Leases;
  }

  /** Without restarts and failed OpDLQ appends, no message is delivered more than
      MaxAttempts times before it is replayed from the dead letter queue. */
  lemma {:induction false} AtMostMaxDeliveries(cfg: Config, start: Time, run: seq<Event>, id: Id)
    requires cfg.Normalized() == cfg && cfg.maxAttempts > 0 && Legal(Fresh(cfg, start), run)
    requires forall i :: 0 <= i < |run| ==> !run[i].Restart?
    requires Final(Fresh(cfg, start), run).book.deadFaults == 0
    ensures Deliveries(Fresh(cfg, start), run, id) <= cfg.maxAttempts
    ensures Final(Fresh(cfg, start), run).book.restarts == 0
  {
    hide Step, Limited, Counts;
    if run != [] {
      var front, e := run[..|run| - 1], run[|run| - 1];
      var s := Final(Fresh(cfg, start), front);
      FaultsGrow(s, e);
      AtMostMaxDeliveries(cfg, start, front, id);
      AttemptsAreLimited(cfg, start, front);
      AttemptsAreDeliveries(cfg, start, front, id);
      LeaseBelowLimit(s, id, Deliveries(Fresh(cfg, start), front, id));
    }
  }

  lemma LeaseBelowLimit(s: State, id: Id, n: int)
    requires Limited(s) && Counts(s.mem, id, n)
    ensures s.mem.cfg.maxAttempts > 0 && id in s.mem.ready ==> n < Limit(s)
  {
  }
}
