/** What survives a crash: every prefix of the written log that keeps the synced
    part reads back, and loses nothing but attempts. */
module Restarts {
  import opened Msgs
  import opened Recovery
  import opened Model
  import opened Partition
  import opened Agreement

  /** From k on the log holds lease records only, and their attempts never fall. */
  ghost predicate Rising(log: seq<Record>, k: nat) {
    forall i :: k <= i < |log| ==>
      log[i].op == OpLease && log[i].msg.Some? && RisesFrom(Replayed(log[..i]), log[i].msg.value)
  }

  ghost predicate RisesFrom(r: Staging, m: Msg) {
    m.id in r.live ==> r.live[m.id].attempts <= m.attempts
  }

  /** a is b, but for attempts that may be lower. */
  ghost predicate Lower(a: Staging, b: Staging) {
    && a.cfg == b.cfg && a.dlq == b.dlq && a.maxSeq == b.maxSeq && a.live.Keys == b.live.Keys
    && forall id :: id in a.live ==>
         a.live[id].attempts <= b.live[id].attempts && a.live[id] == b.live[id].(attempts := a.live[id].attempts)
  }

  lemma RisingFront(log: seq<Record>, k: nat)
    requires Rising(log, k) && log != []
    ensures Rising(log[..|log| - 1], k)
  {
    var front := log[..|log| - 1];
    forall i | k <= i < |front|
      ensures front[i] == log[i] && front[..i] == log[..i]
    {
    }
  }

  lemma RisingAppend(log: seq<Record>, k: nat, rec: Record)
    requires Rising(log, k) && k <= |log|
    requires rec.op == OpLease && rec.msg.Some? && RisesFrom(Replayed(log), rec.msg.value)
    ensures Rising(log + [rec], k)
  {
    var all := log + [rec];
    assert all[..|log|] == log;
    forall i | k <= i < |log|
      ensures all[i] == log[i] && all[..i] == log[..i]
    {
    }
  }

  /** Losing the tail can only lower attempts. */
  lemma {:induction false} TailLower(log: seq<Record>, synced: nat, k: nat)
    requires Rising(log, synced) && synced <= k <= |log|
    ensures Lower(Replayed(log[..k]), Replayed(log))
  {
    if k == |log| {
      assert log[..k] == log;
    } else {
      var front, rec := log[..|log| - 1], log[|log| - 1];
      RisingFront(log, synced);
      TailLower(front, synced, k);
      assert front[..k] == log[..k];
      assert RisesFrom(Replayed(front), rec.msg.value);
    }
  }

  /** What restore needs of a log: a config, and dead letters that are live and due. */
  ghost predicate Sound(r: Staging, clock: Time) {
    && r.cfg.Some? && r.dlq <= r.live.Keys
    && forall id :: id in r.dlq ==> r.live[id].visibleAt <= clock
  }

  /** An unacknowledged last record would not hurt: it names a queue that exists,
      and a message that may die. */
  ghost predicate Harmless(rec: Record, r: Staging, clock: Time) {
    && rec.op != OpCreateQueue && rec.op != OpLease && rec.op != OpEpoch
    && (rec.op == OpDLQ || rec.op == OpNack ==> rec.id in r.live && r.live[rec.id].visibleAt <= clock)
    && (rec.op == OpNack ==> rec.msg.Some? && rec.msg.value.id == rec.id && rec.id !in r.dlq)
    && (rec.op == OpEnqueue ==> rec.msg.Some? && rec.msg.value.id !in r.live)
  }

  ghost predicate HarmlessExtra(s: State) {
    s.disk.extra != [] ==> Harmless(s.disk.extra[0], Replayed(s.disk.log), s.clock)
  }

  ghost predicate Durably(s: State) {
    && s.mem.cfg.Normalized() == s.mem.cfg
    && Rising(s.disk.log, s.disk.synced)
    && HarmlessExtra(s)
  }

  ghost predicate Full(s: State) {
    Inv(s) && LogAgrees(s) && Durably(s)
  }

  // ---------- reading a prefix ----------

  lemma LogSound(s: State)
    requires Places(s.mem) && LogAgrees(s)
    ensures Sound(Replayed(s.disk.log), s.clock)
  {
    var r := Replayed(s.disk.log);
    forall id | id in r.dlq
      ensures id in r.live && r.live[id].visibleAt <= s.clock
    {
      var m :| m in s.mem.dlq && m.id == id;
    }
  }

  /** With the unacknowledged record included, the log is still sound. */
  lemma ExtraSound(s: State)
    requires LogAgrees(s) && HarmlessExtra(s) && s.disk.extra != []
    requires Sound(Replayed(s.disk.log), s.clock)
    ensures Sound(Apply(Replayed(s.disk.log), s.disk.extra[0]), s.clock)
    ensures Apply(Replayed(s.disk.log), s.disk.extra[0]).cfg == Replayed(s.disk.log).cfg
  {
    hide LogAgrees;
  }

  /** The prefix of the written log, in terms of the acknowledged one. */
  lemma PrefixReads(s: State, keep: nat)
    requires Tidy(s.disk) && Rising(s.disk.log, s.disk.synced)
    requires s.disk.synced <= keep <= |s.disk.Written()|
    ensures keep <= |s.disk.log| ==> Lower(Replayed(s.disk.Written()[..keep]), Replayed(s.disk.log))
    ensures keep > |s.disk.log| ==>
              && s.disk.extra != []
              && Replayed(s.disk.Written()[..keep]) == Apply(Replayed(s.disk.log), s.disk.extra[0])
  {
    if keep <= |s.disk.log| {
      assert s.disk.Written()[..keep] == s.disk.log[..keep];
      TailLower(s.disk.log, s.disk.synced, keep);
    } else {
      assert s.disk.Written()[..keep] == s.disk.log + [s.disk.extra[0]];
      ReadOneMore(s.disk.log, s.disk.extra[0]);
    }
  }

  /** Every crash leaves a log that recovery accepts, with the queue's own config. */
  lemma PrefixSound(s: State, keep: nat)
    requires Full(s) && s.disk.synced <= keep <= |s.disk.Written()|
    ensures Sound(Replayed(s.disk.Written()[..keep]), s.clock)
    ensures Replayed(s.disk.Written()[..keep]).cfg == Some(s.mem.cfg)
  {
    LogSound(s);
    PrefixReads(s, keep);
    if keep > |s.disk.log| {
      ExtraSound(s);
    }
  }

  // ---------- restarts ----------

  lemma RestoredHolds(r: Staging, dead: seq<Msg>, now: Time)
    requires Sound(r, now) && Keyed(r.live) && IsDead(r, dead)
    ensures Held(Restored(r, dead, now)) == r.live.Keys && IdsOf(dead) == r.dlq
  {
    DeadAreDistinct(r, dead);
    hide IdsOf, DistinctIds, IsDead;
    var mem := Restored(r, dead, now);
    assert mem.ready.Keys + mem.delayed.Keys == r.live.Keys - r.dlq;
  }

  lemma RestoredParts(r: Staging, dead: seq<Msg>, now: Time)
    requires Sound(r, now) && Keyed(r.live) && IsDead(r, dead)
    ensures Parts(Restored(r, dead, now), r.live, now, 0)
  {
    forall i | 0 <= i < |dead|
      ensures dead[i].id in r.live && Matches(dead[i], r.live[dead[i].id], now, 0) && dead[i].visibleAt <= now
    {
      assert dead[i] in dead;
    }
  }

  lemma RestartAgrees(s: State, e: Event)
    requires Full(s) && e.Restart? && Enabled(s, e)
    ensures LogAgrees(RestartStep(s, e))
  {
    hide Full, Parts, Held, IdsOf, IsDead, Keyed;
    var r := Replayed(s.disk.Written()[..e.keep]);
    PrefixSound(s, e.keep);
    SoundLater(r, s.clock, e.now);
    LiveIsKeyed(s.disk.Written()[..e.keep]);
    RestoredHolds(r, e.dead, e.now);
    RestoredParts(r, e.dead, e.now);
  }

  lemma SoundLater(r: Staging, clock: Time, later: Time)
    requires Sound(r, clock) && clock <= later
    ensures Sound(r, later)
  {
  }

  // ---------- compaction ----------

  /** r is base with the messages of order written over it. */
  ghost predicate Printed(base: Staging, order: seq<Msg>, dead: set<Id>, r: Staging) {
    && r.cfg == base.cfg && r.dlq == base.dlq + dead && r.maxSeq == base.maxSeq
    && r.live.Keys == base.live.Keys + IdsOf(order)
    && (forall i :: 0 <= i < |order| ==> order[i].id in r.live && r.live[order[i].id] == order[i].Unleased())
    && (forall id :: id in base.live && id !in IdsOf(order) ==> id in r.live && r.live[id] == base.live[id])
  }

  ghost predicate Below(order: seq<Msg>, max: nat) {
    forall i :: 0 <= i < |order| ==> order[i].seqNo <= max
  }

  /** One more message in the printout. */
  lemma PrintOne(base: Staging, order: seq<Msg>, dead: set<Id>, r: Staging, m: Msg, name: string)
    requires Printed(base, order, dead, r)
    requires DistinctIds(order) && m.id !in IdsOf(order) && m.seqNo <= base.maxSeq
    ensures Printed(base, order + [m], dead, Apply(r, EnqueueRecord(name, m.Unleased())))
  {
    IdsAppend(order, m);
    forall i | 0 <= i < |order|
      ensures order[i].id != m.id
    {
      assert order[i] in order;
    }
    hide IdsOf, DistinctIds;
  }

  lemma PrintDead(base: Staging, order: seq<Msg>, dead: set<Id>, r: Staging, id: Id, name: string)
    requires Printed(base, order, dead, r)
    ensures Printed(base, order, dead + {id}, Apply(r, DeadRecord(name, id)))
  {
    hide IdsOf;
  }

  lemma {:induction false} EmitPrints(log: seq<Record>, name: string, order: seq<Msg>)
    requires DistinctIds(order) && Below(order, Replayed(log).maxSeq)
    ensures Printed(Replayed(log), order, {}, Replayed(log + Emit(name, order)))
  {
    if order == [] {
      assert log + Emit(name, order) == log;
    } else {
      var front, m := order[..|order| - 1], order[|order| - 1];
      SplitLast(order);
      EmitPrints(log, name, front);
      var rec := EnqueueRecord(name, m.Unleased());
      assert log + Emit(name, order) == log + Emit(name, front) + [rec];
      ReadOneMore(log + Emit(name, front), rec);
      PrintOne(Replayed(log), front, {}, Replayed(log + Emit(name, front)), m, name);
    }
  }

  /** One more dead letter in the printout. */
  lemma PrintDeadOne(base: Staging, log: seq<Record>, front: seq<Msg>, m: Msg, name: string)
    requires Printed(base, front, IdsOf(front), Replayed(log))
    requires DistinctIds(front) && m.id !in IdsOf(front) && m.seqNo <= base.maxSeq
    ensures Printed(base, front + [m], IdsOf(front + [m]),
                    Replayed(log + [EnqueueRecord(name, m.Unleased()), DeadRecord(name, m.id)]))
  {
    hide Printed, IdsOf, DistinctIds, Apply, Replayed;
    var more := log + [EnqueueRecord(name, m.Unleased())];
    assert log + [EnqueueRecord(name, m.Unleased()), DeadRecord(name, m.id)] == more + [DeadRecord(name, m.id)];
    ReadOneMore(log, EnqueueRecord(name, m.Unleased()));
    ReadOneMore(more, DeadRecord(name, m.id));
    PrintOne(base, front, IdsOf(front), Replayed(log), m, name);
    PrintDead(base, front + [m], IdsOf(front), Replayed(more), m.id, name);
    IdsAppend(front, m);
  }

  lemma {:induction false} EmitDeadPrints(log: seq<Record>, name: string, dlq: seq<Msg>)
    requires DistinctIds(dlq) && Below(dlq, Replayed(log).maxSeq)
    ensures Printed(Replayed(log), dlq, IdsOf(dlq), Replayed(log + EmitDead(name, dlq)))
  {
    if dlq == [] {
      assert log + EmitDead(name, dlq) == log;
    } else {
      hide Printed, IdsOf, DistinctIds, Apply;
      var front, m := dlq[..|dlq| - 1], dlq[|dlq| - 1];
      SplitLast(dlq);
      EmitDeadPrints(log, name, front);
      var so := log + EmitDead(name, front);
      assert log + EmitDead(name, dlq) == so + [EnqueueRecord(name, m.Unleased()), DeadRecord(name, m.id)];
      PrintDeadOne(Replayed(log), so, front, m, name);
    }
  }

  /** Sequence numbers in the log never exceed its maximum. */
  lemma {:induction false} LiveBelowMax(log: seq<Record>)
    ensures forall id :: id in Replayed(log).live ==> Replayed(log).live[id].seqNo <= Replayed(log).maxSeq
  {
    if log != [] {
      LiveBelowMax(log[..|log| - 1]);
    }
  }

  lemma HeldBelow(s: State)
    requires LogAgrees(s)
    ensures forall id :: id in s.mem.ready ==> s.mem.ready[id].seqNo <= s.mem.seqNo
    ensures forall id :: id in s.mem.delayed ==> s.mem.delayed[id].seqNo <= s.mem.seqNo
    ensures forall id :: id in s.mem.inflight ==> s.mem.inflight[id].seqNo <= s.mem.seqNo
    ensures Below(s.mem.dlq, s.mem.seqNo)
  {
    LiveBelowMax(s.disk.log);
  }

  /** r is the state that a printout of these messages stands for. */
  ghost predicate Reads(r: Staging, cfg: Config, seqNo: nat, order: seq<Msg>, dlq: seq<Msg>) {
    && r.cfg == Some(cfg) && r.maxSeq == seqNo
    && r.dlq == IdsOf(dlq) && r.live.Keys == IdsOf(order) + IdsOf(dlq)
    && (forall i :: 0 <= i < |order| ==> order[i].id in r.live && r.live[order[i].id] == order[i].Unleased())
    && (forall i :: 0 <= i < |dlq| ==> dlq[i].id in r.live && r.live[dlq[i].id] == dlq[i].Unleased())
  }

  lemma CreateReads(cfg: Config, seqNo: nat)
    requires cfg.Normalized() == cfg
    ensures Replayed([CreateRecord(cfg, seqNo)]) == Staging(Some(cfg), map[], {}, seqNo)
  {
    var create := [CreateRecord(cfg, seqNo)];
    assert create[..0] == [] && Replayed(create) == Apply(EMPTY, create[0]);
  }

  /** Reading a printout back gives exactly what was printed. */
  lemma PrintoutReads(cfg: Config, seqNo: nat, order: seq<Msg>, dlq: seq<Msg>)
    requires cfg.Normalized() == cfg
    requires DistinctIds(order) && DistinctIds(dlq) && IdsOf(order) !! IdsOf(dlq)
    requires Below(order, seqNo) && Below(dlq, seqNo)
    ensures Reads(Replayed(LiveRecords(cfg, seqNo, order, dlq)), cfg, seqNo, order, dlq)
  {
    hide DistinctIds, Below;
    var create := [CreateRecord(cfg, seqNo)];
    CreateReads(cfg, seqNo);
    EmitPrints(create, cfg.name, order);
    EmitDeadPrints(create + Emit(cfg.name, order), cfg.name, dlq);
    assert forall i :: 0 <= i < |order| ==> order[i] in order;
  }

  lemma OrderBelow(s: State, order: seq<Msg>)
    requires LogAgrees(s) && Lists(order, s.mem.ready, s.mem.delayed, s.mem.inflight)
    ensures Below(order, s.mem.seqNo) && Below(s.mem.dlq, s.mem.seqNo)
  {
    HeldBelow(s);
    forall i | 0 <= i < |order|
      ensures order[i].seqNo <= s.mem.seqNo
    {
      assert order[i] in order;
    }
    hide LogAgrees;
  }

  lemma ListsHeld(order: seq<Msg>, mem: Memory)
    requires Places(mem) && Lists(order, mem.ready, mem.delayed, mem.inflight)
    ensures IdsOf(order) + IdsOf(mem.dlq) == Held(mem)
    ensures IdsOf(order) !! IdsOf(mem.dlq) && DistinctIds(order)
  {
  }

  /** A heap whose messages are all printed matches its printout. */
  lemma HeapPrinted(h: map<Id, Msg>, order: seq<Msg>, live: map<Id, Msg>, clock: Time, due: bool)
    requires Keyed(h) && forall id :: id in h ==> h[id] in order && (due ==> h[id].visibleAt <= clock)
    requires forall i :: 0 <= i < |order| ==> order[i].id in live && live[order[i].id] == order[i].Unleased()
    ensures HeapAgrees(h, live, clock, 0, due)
  {
    forall id | id in h
      ensures id in live && Matches(h[id], live[id], clock, 0)
    {
      var i :| 0 <= i < |order| && order[i] == h[id];
    }
  }

  lemma PrintedParts(s: State, order: seq<Msg>, r: Staging)
    requires Places(s.mem) && LogAgrees(s) && Lists(order, s.mem.ready, s.mem.delayed, s.mem.inflight)
    requires Reads(r, s.mem.cfg, s.mem.seqNo, order, s.mem.dlq)
    ensures Parts(s.mem, r.live, s.clock, 0)
  {
    hide IdsOf, DistinctIds;
    HeapPrinted(s.mem.ready, order, r.live, s.clock, true);
    HeapPrinted(s.mem.delayed, order, r.live, s.clock, false);
    HeapPrinted(s.mem.inflight, order, r.live, s.clock, true);
  }

  lemma CompactAgrees(s: State, e: Event)
    requires Full(s) && e.Compact? && Enabled(s, e)
    ensures LogAgrees(CompactStep(s, e))
  {
    hide Parts, Lists, Reads, DistinctIds, IdsOf, Below;
    OrderBelow(s, e.order);
    ListsHeld(e.order, s.mem);
    PrintoutReads(s.mem.cfg, s.mem.seqNo, e.order, s.mem.dlq);
    var r := Replayed(CompactStep(s, e).disk.log);
    PrintedParts(s, e.order, r);
    PartsLater(s.mem, r.live, s.clock, 0, s.clock, Slack(s));
    ReadsHeader(r, s.mem.cfg, s.mem.seqNo, e.order, s.mem.dlq);
  }

  /** Reading back the printout of a reached state. */
  lemma PrintedAsHeld(s: State, order: seq<Msg>)
    requires Full(s) && Lists(order, s.mem.ready, s.mem.delayed, s.mem.inflight)
    ensures Reads(Replayed(LiveRecords(s.mem.cfg, s.mem.seqNo, order, s.mem.dlq)),
                  s.mem.cfg, s.mem.seqNo, order, s.mem.dlq)
  {
    hide Parts, Lists, Reads, DistinctIds, IdsOf, Below;
    OrderBelow(s, order);
    ListsHeld(order, s.mem);
    PrintoutReads(s.mem.cfg, s.mem.seqNo, order, s.mem.dlq);
  }

  lemma ReadsHeader(r: Staging, cfg: Config, seqNo: nat, order: seq<Msg>, dlq: seq<Msg>)
    requires Reads(r, cfg, seqNo, order, dlq)
    ensures r.cfg == Some(cfg) && r.maxSeq == seqNo
    ensures r.dlq == IdsOf(dlq) && r.live.Keys == IdsOf(order) + IdsOf(dlq)
  {
  }

  // ---------- every step keeps the whole invariant ----------

  lemma DurableStays(s: State, t: State, rec: Record, o: Outcome)
    requires Durably(s) && Tidy(s.disk) && Possible(s.disk, o)
    requires t.disk == s.disk.Durable(rec, o) && t.mem.cfg == s.mem.cfg && t.clock == s.clock
    requires o == NotSynced ==> Harmless(rec, Replayed(s.disk.log), s.clock)
    ensures Durably(t)
  {
    hide Harmless, RisesFrom;
  }

  lemma LazyStays(s: State, t: State, m: Msg)
    requires Durably(s) && Tidy(s.disk) && !s.disk.latched
    requires t.disk == s.disk.Lazy(LeaseRecord(s.mem.cfg.name, m)) && t.mem.cfg == s.mem.cfg && t.clock == s.clock
    requires RisesFrom(Replayed(s.disk.log), m)
    ensures Durably(t)
  {
    RisingAppend(s.disk.log, s.disk.synced, LeaseRecord(s.mem.cfg.name, m));
    hide Harmless, RisesFrom, Rising;
  }

  lemma LeaseStays(s: State, e: Event)
    requires Full(s) && (e.Lease? || e.RollBack?) && e.id in s.mem.ready && !s.disk.latched
    ensures e.Lease? ==> Durably(LeaseStep(s, e))
    ensures e.RollBack? ==> Durably(RollBackStep(s, e))
  {
    hide Rising, HarmlessExtra;
    var m := s.mem.ready[e.id].Leased(e.receipt, e.expiry);
    assert RisesFrom(Replayed(s.disk.log), m);
    LazyStays(s, if e.Lease? then LeaseStep(s, e) else RollBackStep(s, e), m);
  }

  lemma EnqueueStays(s: State, e: Event)
    requires Full(s) && e.Enqueue? && e.id !in s.book.used && Possible(s.disk, e.o)
    ensures Durably(EnqueueStep(s, e))
  {
    hide Rising, HarmlessExtra, Parts, Places, LeaseBijection, EnqueuesOnly;
    var rec := EnqueueRecord(s.mem.cfg.name, NewMsg(s, e));
    DurableStays(s, EnqueueStep(s, e), rec, e.o);
  }

  lemma AckStays(s: State, e: Event)
    requires Full(s) && e.Ack? && Leases(s.mem, e.receipt) && Possible(s.disk, e.o)
    ensures Durably(AckStep(s, e))
  {
    hide Rising, HarmlessExtra, LogAgrees, Places, LeaseBijection, EnqueuesOnly;
    var m := s.mem.inflight[s.mem.leases[e.receipt]];
    DurableStays(s, AckStep(s, e), AckRecord(s.mem.cfg.name, m.id), e.o);
  }

  lemma ReplayStays(s: State, e: Event)
    requires Full(s) && e.ReplayHead? && s.mem.dlq != [] && Possible(s.disk, e.o)
    ensures Durably(ReplayStep(s, e))
  {
    hide Rising, HarmlessExtra, LogAgrees, Places, LeaseBijection, EnqueuesOnly;
    DurableStays(s, ReplayStep(s, e), ReplayRecord(s.mem.cfg.name, s.mem.dlq[0].id), e.o);
  }

  lemma RetryStays(s: State, m: Msg, now: Time, delay: int, o: Outcome)
    requires Durably(s) && Tidy(s.disk) && Possible(s.disk, o)
    requires m.id in Replayed(s.disk.log).live && Replayed(s.disk.log).live[m.id].visibleAt <= s.clock
    requires m.id !in Replayed(s.disk.log).dlq
    ensures Durably(Retry(s, m, now, delay, o))
  {
    hide Durably, Tidy;
    var back := m.(visibleAt := now + delay);
    var rec := if s.mem.cfg.Exhausted(m) then DeadRecord(s.mem.cfg.name, m.id) else NackRecord(s.mem.cfg.name, back);
    DurableStays(s, Retry(s, m, now, delay, o), rec, o);
  }

  lemma InflightMayEnd(s: State, id: Id)
    requires Full(s) && id in s.mem.inflight
    ensures var r := Replayed(s.disk.log);
            s.mem.inflight[id].id == id && id in r.live && r.live[id].visibleAt <= s.clock && id !in r.dlq
  {
    hide Durably;
  }

  lemma EndingStays(s: State, e: Event)
    requires Full(s) && Enabled(s, e) && (e.Nack? || e.Expire?)
    ensures Durably(Step(s, e))
  {
    hide Retry, Full, Harmless, Rising, Possible;
    FullParts(s);
    var id := if e.Nack? then s.mem.leases[e.receipt] else e.id;
    InflightMayEnd(s, id);
    var m := s.mem.inflight[id];
    if e.Nack? {
      RetryStays(s.(mem := EndLease(s.mem, m).(nacked := s.mem.nacked + 1)), m.Unleased(), s.clock, e.delay, e.o);
    } else {
      RetryStays(s.(mem := EndLease(s.mem, m).(expired := s.mem.expired + 1)), m.Unleased(), e.now, 0, e.o);
    }
  }

  lemma FullParts(s: State)
    requires Full(s)
    ensures Durably(s) && Tidy(s.disk) && Rising(s.disk.log, s.disk.synced)
  {
  }

  lemma RestartStays(s: State, e: Event)
    requires Full(s) && e.Restart? && Enabled(s, e)
    ensures Durably(RestartStep(s, e))
  {
    PrefixSound(s, e.keep);
    hide Full, IsDead, Sound;
  }

  lemma AgreesStep(s: State, e: Event)
    requires Full(s) && Enabled(s, e)
    ensures LogAgrees(Step(s, e))
  {
    match e
    case Enqueue(_, _, _, _, o) => if o == Ok { EnqueueAgrees(s, e); } else { EnqueueFails(s, e); }
    case Promote(_, _) => PromoteAgrees(s, e);
    case Expire(_, _, _) => ExpireAgrees(s, e);
    case Lease(_, _, _) => LeaseAgrees(s, e);
    case RollBack(_, _, _) => RollBackAgrees(s, e);
    case Ack(_, o) => if o == Ok { AckAgrees(s, e); } else { FaultAgrees(s, Step(s, e)); }
    case Extend(_, _) => ExtendAgrees(s, e);
    case Nack(_, _, _) => NackAgrees(s, e);
    case ReplayHead(o) => if o == Ok { ReplayAgrees(s, e); } else { FaultAgrees(s, Step(s, e)); }
    case Compact(_) => CompactAgrees(s, e);
    case Restart(_, _, _) => RestartAgrees(s, e);
    case _ => QuietAgrees(s, Step(s, e));
  }

  /** A failed append that leaves memory alone only raises the slack. */
  lemma FaultAgrees(s: State, t: State)
    requires LogAgrees(s) && t.mem == s.mem && t.disk.log == s.disk.log && t.clock == s.clock
    requires t.book == s.book.(faulty := true)
    ensures LogAgrees(t)
  {
    hide Parts, Held, IdsOf;
    PartsLater(s.mem, Replayed(s.disk.log).live, s.clock, Slack(s), s.clock, 1);
  }

  /** Time passing, signals and other queues' fsyncs touch no message. */
  lemma QuietAgrees(s: State, t: State)
    requires LogAgrees(s) && t.disk.log == s.disk.log && t.book == s.book && s.clock <= t.clock
    requires t.mem == s.mem.(wake := t.mem.wake, owed := t.mem.owed)
    ensures LogAgrees(t)
  {
    hide Parts, IdsOf;
    PartsLater(s.mem, Replayed(s.disk.log).live, s.clock, Slack(s), t.clock, Slack(s));
    SameParts(s.mem, t.mem, Replayed(s.disk.log).live, t.clock, Slack(s));
  }

  lemma StaysStep(s: State, e: Event)
    requires Full(s) && Enabled(s, e)
    ensures Durably(Step(s, e))
  {
    match e
    case Enqueue(_, _, _, _, _) => EnqueueStays(s, e);
    case Expire(_, _, _) => EndingStays(s, e);
    case Lease(_, _, _) => LeaseStays(s, e);
    case RollBack(_, _, _) => LeaseStays(s, e);
    case Ack(_, _) => AckStays(s, e);
    case Nack(_, _, _) => EndingStays(s, e);
    case ReplayHead(_) => ReplayStays(s, e);
    case Restart(_, _, _) => RestartStays(s, e);
    case _ => QuietStays(s, e);
  }

  lemma QuietStays(s: State, e: Event)
    requires Full(s) && Enabled(s, e)
    requires e.Clock? || e.Promote? || e.Extend? || e.Signal? || e.OtherSync? || e.OtherLatch? || e.Compact?
    ensures Durably(Step(s, e))
  {
    hide LogAgrees, Places, LeaseBijection, Known, Lists, LiveRecords;
  }

  lemma FullStep(s: State, e: Event)
    requires Full(s) && Enabled(s, e)
    ensures Full(Step(s, e))
  {
    StepKeeps(s, e);
    AgreesStep(s, e);
    StaysStep(s, e);
    hide Inv, LogAgrees, Durably, Step, Enabled;
  }

  lemma FreshFull(cfg: Config, clock: Time)
    requires cfg.Normalized() == cfg
    ensures Full(Fresh(cfg, clock))
  {
    CreateReads(cfg, 0);
  }

  /** In every state of every run, memory and log agree and the log is readable. */
  lemma {:induction false} FullRun(init: State, run: seq<Event>)
    requires Full(init) && Legal(init, run)
    ensures Full(Final(init, run))
  {
    hide Full, Step;
    if run != [] {
      FullRun(init, run[..|run| - 1]);
      FullStep(Final(init, run[..|run| - 1]), run[|run| - 1]);
    }
  }
}
