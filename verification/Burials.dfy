/** Only messages that have had all their attempts are dead letters: the other half
    of the attempt limit (queue/queue.go:446-456). */
module Burials {
  import opened Msgs
  import opened Recovery
  import opened Model
  import opened Partition
  import opened Agreement
  import opened Restarts
  import opened DeadLetters

  /** Every dead letter in the log has had max attempts. */
  ghost predicate DeadEnough(r: Staging, max: int) {
    forall id :: id in r.dlq && id in r.live ==> max > 0 && r.live[id].attempts >= max
  }

  /** A record buries only such a message, and touches no other dead letter. */
  ghost predicate Fair(rec: Record, r: Staging, max: int) {
    && (rec.op == OpDLQ ==> max > 0 && (rec.id in r.live ==> r.live[rec.id].attempts >= max))
    && (rec.op == OpNack && rec.msg.Some? ==> rec.msg.value.id !in r.dlq)
    && (rec.op == OpEnqueue && rec.msg.Some? ==> rec.msg.value.id !in r.dlq)
    && rec.op != OpLease
  }

  /** What any crash leaves has only such dead letters. */
  ghost predicate Spares(s: State) {
    var max := s.mem.cfg.maxAttempts;
    && s.disk.synced <= |s.disk.log| && DeadEnough(Replayed(s.disk.log[..s.disk.synced]), max)
    && (s.disk.extra != [] ==> Fair(s.disk.extra[0], Replayed(s.disk.log), max))
  }

  lemma ApplyDead(r: Staging, rec: Record, max: int)
    requires DeadEnough(r, max) && Fair(rec, r, max)
    ensures DeadEnough(Apply(r, rec), max)
  {
  }

  /** Lease records behind the synced part can only raise attempts. */
  lemma TailDead(log: seq<Record>, synced: nat, k: nat, max: int)
    requires Rising(log, synced) && synced <= k <= |log| && DeadEnough(Replayed(log[..synced]), max)
    ensures DeadEnough(Replayed(log[..k]), max)
  {
    forall i | synced <= i < k
      ensures log[..k][i] == log[i] && log[..k][..i] == log[..i]
    {
    }
    TailLower(log[..k], synced, synced);
    assert log[..k][..synced] == log[..synced];
  }

  lemma LogDead(s: State)
    requires Full(s) && Spares(s)
    ensures DeadEnough(Replayed(s.disk.log), s.mem.cfg.maxAttempts)
  {
    hide LogAgrees, Inv;
    TailDead(s.disk.log, s.disk.synced, |s.disk.log|, s.mem.cfg.maxAttempts);
    assert s.disk.log[..|s.disk.log|] == s.disk.log;
  }

  lemma MemoryDead(s: State)
    requires Full(s) && Spares(s)
    ensures forall m :: m in s.mem.dlq ==> s.mem.cfg.maxAttempts > 0 && m.attempts >= s.mem.cfg.maxAttempts
  {
    hide Inv, Durably, Spares;
    LogDead(s);
    forall m | m in s.mem.dlq
      ensures s.mem.cfg.maxAttempts > 0 && m.attempts >= s.mem.cfg.maxAttempts
    {
      assert m.id in IdsOf(s.mem.dlq);
    }
  }

  // ---------- steps ----------

  lemma RetryFair(s: State, id: Id, now: Time, delay: int)
    requires Full(s) && id in s.mem.inflight
    ensures Fair(RetryRecord(s.mem.cfg, s.mem.inflight[id].Unleased(), now, delay), Replayed(s.disk.log),
                 s.mem.cfg.maxAttempts)
  {
    InflightMayEnd(s, id);
    InflightMatches(s, id);
    hide Full, LogAgrees, Inv;
  }

  lemma EnqueueFair(s: State, e: Event)
    requires Full(s) && Enabled(s, e) && e.Enqueue?
    ensures Fair(EnqueueRecord(s.mem.cfg.name, NewMsg(s, e)), Replayed(s.disk.log), s.mem.cfg.maxAttempts)
  {
    hide Durably, Parts, Places, LeaseBijection, EnqueuesOnly;
  }

  /** The record of a step with a durable append. */
  ghost function Appends(s: State, e: Event): Record
    requires Enabled(s, e) && (e.Enqueue? || e.Ack? || e.Nack? || e.Expire? || e.ReplayHead?)
  {
    var name := s.mem.cfg.name;
    match e
    case Enqueue(_, _, _, _, _) => EnqueueRecord(name, NewMsg(s, e))
    case Ack(receipt, _) => AckRecord(name, s.mem.inflight[s.mem.leases[receipt]].id)
    case Nack(receipt, delay, _) =>
      RetryRecord(s.mem.cfg, s.mem.inflight[s.mem.leases[receipt]].Unleased(), s.clock, delay)
    case Expire(id, now, _) => RetryRecord(s.mem.cfg, s.mem.inflight[id].Unleased(), now, 0)
    case ReplayHead(_) => ReplayRecord(name, s.mem.dlq[0].id)
  }

  lemma AppendsIt(s: State, e: Event)
    requires Enabled(s, e) && (e.Enqueue? || e.Ack? || e.Nack? || e.Expire? || e.ReplayHead?)
    ensures Step(s, e).disk == s.disk.Durable(Appends(s, e), e.o)
  {
    hide Place, Retry, RetryRecord, Replayed, IsDead, Lists;
    if e.Nack? {
      var m := s.mem.inflight[s.mem.leases[e.receipt]];
      var mem := EndLease(s.mem, m).(nacked := s.mem.nacked + 1);
      RetryDisk(s.(mem := mem), m.Unleased(), s.clock, e.delay, e.o);
    } else if e.Expire? {
      var mem := EndLease(s.mem, s.mem.inflight[e.id]).(expired := s.mem.expired + 1);
      RetryDisk(s.(mem := mem), s.mem.inflight[e.id].Unleased(), e.now, 0, e.o);
    }
  }

  lemma RetryDisk(s: State, m: Msg, now: Time, delay: int, o: Outcome)
    ensures Retry(s, m, now, delay, o).disk == s.disk.Durable(RetryRecord(s.mem.cfg, m, now, delay), o)
  {
    hide Place;
  }

  lemma DurableSpares(s: State, e: Event)
    requires Full(s) && Enabled(s, e) && Spares(s)
    requires e.Enqueue? || e.Ack? || e.Nack? || e.Expire? || e.ReplayHead?
    ensures Spares(Step(s, e))
  {
    hide Full, Step, RetryRecord, NewMsg, Replayed, IsDead, Lists, DeadEnough, Possible;
    var rec, max := Appends(s, e), s.mem.cfg.maxAttempts;
    AppendsIt(s, e);
    ConfigStays(s, e);
    LogDead(s);
    match e {
      case Enqueue(_, _, _, _, _) => EnqueueFair(s, e);
      case Nack(receipt, delay, _) => RetryFair(s, s.mem.leases[receipt], s.clock, delay);
      case Expire(id, now, _) => RetryFair(s, id, now, 0);
      case _ =>
    }
    if e.o == Ok {
      ReadOneMore(s.disk.log, rec);
      ApplyDead(Replayed(s.disk.log), rec, max);
      assert (s.disk.log + [rec])[..|s.disk.log| + 1] == s.disk.log + [rec];
      FullParts(s);
      OpenHasNone(s, e);
    }
  }

  /** A log that takes an append has no unacknowledged record. */
  lemma OpenHasNone(s: State, e: Event)
    requires e.Enqueue? || e.Ack? || e.Nack? || e.Expire? || e.ReplayHead?
    requires Tidy(s.disk) && Enabled(s, e) && e.o == Ok
    ensures s.disk.extra == []
  {
  }

  lemma CompactSpares(s: State, e: Event)
    requires Full(s) && Enabled(s, e) && Spares(s) && e.Compact?
    ensures Spares(Step(s, e))
  {
    hide Full, Lists, Replayed, DistinctIds, Below, LiveRecords, Spares, DeadEnough;
    MemoryDead(s);
    PrintedDead(s, e.order);
    var log := Step(s, e).disk.log;
    assert log[..|log|] == log;
    SparesIt(Step(s, e));
  }

  lemma SparesIt(s: State)
    requires s.disk.synced == |s.disk.log| && s.disk.extra == []
    requires DeadEnough(Replayed(s.disk.log), s.mem.cfg.maxAttempts)
    ensures Spares(s)
  {
    assert s.disk.log[..|s.disk.log|] == s.disk.log;
  }

  lemma PrintedDead(s: State, order: seq<Msg>)
    requires Full(s) && Lists(order, s.mem.ready, s.mem.delayed, s.mem.inflight)
    requires forall m :: m in s.mem.dlq ==> s.mem.cfg.maxAttempts > 0 && m.attempts >= s.mem.cfg.maxAttempts
    ensures DeadEnough(Replayed(LiveRecords(s.mem.cfg, s.mem.seqNo, order, s.mem.dlq)), s.mem.cfg.maxAttempts)
  {
    hide Full, Lists, Replayed, DistinctIds, Below, LiveRecords;
    PrintedAsHeld(s, order);
    assert forall i :: 0 <= i < |s.mem.dlq| ==> s.mem.dlq[i] in s.mem.dlq;
  }

  lemma RestartSpares(s: State, e: Event)
    requires Full(s) && Enabled(s, e) && Spares(s) && e.Restart?
    ensures Spares(Step(s, e))
  {
    hide Full, Replayed, IsDead, DeadEnough, Fair;
    ConfigStays(s, e);
    FullParts(s);
    var log, max := s.disk.Written()[..e.keep], s.mem.cfg.maxAttempts;
    if e.keep <= |s.disk.log| {
      assert log == s.disk.log[..e.keep];
      TailDead(s.disk.log, s.disk.synced, e.keep, max);
    } else {
      LogDead(s);
      PrefixReads(s, e.keep);
      ApplyDead(Replayed(s.disk.log), s.disk.extra[0], max);
    }
    SparesIt(Step(s, e));
  }

  lemma LazySpares(s: State, e: Event)
    requires Full(s) && Enabled(s, e) && Spares(s)
    requires !e.Enqueue? && !e.Ack? && !e.Nack? && !e.Expire? && !e.ReplayHead? && !e.Compact? && !e.Restart?
    ensures Spares(Step(s, e))
  {
    hide Full, Replayed, IsDead, Lists, DeadEnough, Fair, Leases, Place;
    LogDead(s);
    FullParts(s);
    var d, t := s.disk, Step(s, e).disk;
    LazyDisk(s, e);
    assert t.log[..d.synced] == d.log[..d.synced];
    assert d.log[..|d.log|] == d.log;
  }

  /** Steps without a durable append write at most a lease record, on a log that has
      no unacknowledged one. */
  lemma LazyDisk(s: State, e: Event)
    requires Enabled(s, e) && Tidy(s.disk)
    requires !e.Enqueue? && !e.Ack? && !e.Nack? && !e.Expire? && !e.ReplayHead? && !e.Compact? && !e.Restart?
    ensures var t := Step(s, e).disk;
            && s.disk.log <= t.log && t.extra == s.disk.extra && (t.extra != [] ==> t.log == s.disk.log)
            && (t.synced == s.disk.synced || (t.synced == |t.log| && t.log == s.disk.log))
            && Step(s, e).mem.cfg == s.mem.cfg
  {
    hide Replayed, IsDead, Lists, Leases;
  }

  lemma SparesStep(s: State, e: Event)
    requires Full(s) && Enabled(s, e) && Spares(s)
    ensures Spares(Step(s, e))
  {
    hide Full, Spares, Step, Enabled;
    match e
    case Compact(_) => CompactSpares(s, e);
    case Restart(_, _, _) => RestartSpares(s, e);
    case Enqueue(_, _, _, _, _) => DurableSpares(s, e);
    case Ack(_, _) => DurableSpares(s, e);
    case Nack(_, _, _) => DurableSpares(s, e);
    case Expire(_, _, _) => DurableSpares(s, e);
    case ReplayHead(_) => DurableSpares(s, e);
    case _ => LazySpares(s, e);
  }

  lemma {:induction false} SparesRun(init: State, run: seq<Event>)
    requires Full(init) && Spares(init) && Legal(init, run)
    ensures Spares(Final(init, run))
  {
    if run != [] {
      hide Full, Spares, Step, Enabled;
      SparesRun(init, run[..|run| - 1]);
      FullRun(init, run[..|run| - 1]);
      SparesStep(Final(init, run[..|run| - 1]), run[|run| - 1]);
    }
  }

  // ---------- theorem ----------

  /** In every run, failed appends, restarts and compactions included: a dead letter
      has had all the attempts its queue allows, and a queue that allows any number
      of them has no dead letters. */
  lemma DeadLettersHadAllAttempts(cfg: Config, start: Time, run: seq<Event>)
    requires cfg.Normalized() == cfg && Legal(Fresh(cfg, start), run)
    ensures var mem := Final(Fresh(cfg, start), run).mem;
            && (forall m :: m in mem.dlq ==> cfg.maxAttempts > 0 && m.attempts >= cfg.maxAttempts)
            && (cfg.maxAttempts <= 0 ==> mem.dlq == [])
  {
    hide Full, Spares, Legal, Final;
    FreshFull(cfg, start);
    FreshSpares(cfg, start);
    SparesRun(Fresh(cfg, start), run);
    FullRun(Fresh(cfg, start), run);
    AttemptsAreLimited(cfg, start, run);
    MemoryDead(Final(Fresh(cfg, start), run));
    assert Final(Fresh(cfg, start), run).mem.dlq != [] ==>
           Final(Fresh(cfg, start), run).mem.dlq[0] in Final(Fresh(cfg, start), run).mem.dlq;
  }

  lemma FreshSpares(cfg: Config, start: Time)
    requires cfg.Normalized() == cfg
    ensures Spares(Fresh(cfg, start))
  {
    CreateReads(cfg, 0);
    assert [CreateRecord(cfg, 0)][..1] == [CreateRecord(cfg, 0)];
  }
}
