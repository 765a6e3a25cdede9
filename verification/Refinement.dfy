/** Recovery refines memory, and compaction preserves the meaning of the log. */
module Refinement {
  import opened Msgs
  import opened Recovery
  import opened Model
  import opened Partition
  import opened Agreement
  import opened Restarts
  import opened Durability

  /** Two messages of the same contents and attempts, and of the same eligibility from
      now on. VisibleAt itself may differ; module Visibility says when. */
  ghost predicate SameMsg(a: Msg, b: Msg, clock: Time) {
    && a.id == b.id && a.body == b.body && a.priority == b.priority && a.seqNo == b.seqNo
    && a.enqueuedAt == b.enqueuedAt && a.attempts == b.attempts
    && forall t :: clock <= t ==> (a.Ready(t) <==> b.Ready(t))
  }

  lemma MatchesIsSame(m: Msg, l: Msg, clock: Time)
    requires Matches(m, l, clock, 0)
    ensures SameMsg(m, l, clock)
  {
  }

  /** Every message of the heap is in ready or delayed of the recovered memory. */
  ghost predicate Recovered(h: map<Id, Msg>, mem: Memory, clock: Time) {
    forall id :: id in h ==>
      && (id in mem.ready || id in mem.delayed)
      && (id in mem.ready ==> SameMsg(h[id], mem.ready[id], clock))
      && (id in mem.delayed ==> SameMsg(h[id], mem.delayed[id], clock))
  }

  /** One of these messages is m, but for the exact VisibleAt. */
  ghost predicate Among(m: Msg, ms: seq<Msg>, clock: Time) {
    exists x :: x in ms && SameMsg(m, x, clock)
  }

  /** Two dead letter lists hold the same messages, in any order. */
  ghost predicate SameDead(a: seq<Msg>, b: seq<Msg>, clock: Time) {
    (forall m :: m in a ==> Among(m, b, clock)) && (forall m :: m in b ==> Among(m, a, clock))
  }

  lemma HeapRecovered(h: map<Id, Msg>, r: Staging, dead: seq<Msg>, clock: Time, now: Time, due: bool)
    requires HeapAgrees(h, r.live, clock, 0, due) && clock <= now && r.cfg.Some?
    requires forall id :: id in h ==> id !in r.dlq
    ensures Recovered(h, Restored(r, dead, now), clock)
  {
    var mem := Restored(r, dead, now);
    forall id | id in h
      ensures id in mem.ready || id in mem.delayed
      ensures id in mem.ready ==> SameMsg(h[id], mem.ready[id], clock)
      ensures id in mem.delayed ==> SameMsg(h[id], mem.delayed[id], clock)
    {
      MatchesIsSame(h[id], r.live[id], clock);
    }
  }

  /** While no append has failed since the last restart, a restart that reads the
      whole log rebuilds the queue: the same config and sequence counter, the same
      dead letters, and every other message, inflight ones included, back in ready
      or delayed, all with the same contents, attempts and eligibility ever after. */
  lemma RecoveryRefinesMemory(cfg: Config, start: Time, run: seq<Event>, now: Time, dead: seq<Msg>)
    requires cfg.Normalized() == cfg && Legal(Fresh(cfg, start), run)
    requires !Final(Fresh(cfg, start), run).book.faulty
    requires var s := Final(Fresh(cfg, start), run); s.clock <= now && IsDead(Replayed(s.disk.log), dead)
    ensures var s := Final(Fresh(cfg, start), run);
            && Enabled(s, Restart(|s.disk.log|, now, dead))
            && var r := Step(s, Restart(|s.disk.log|, now, dead)).mem;
            && r.cfg == s.mem.cfg && r.seqNo == s.mem.seqNo
            && IdsOf(r.dlq) == IdsOf(s.mem.dlq) && r.inflight == map[] && r.leases == map[]
            && Held(r) == Held(s.mem)
            && Recovered(s.mem.ready, r, s.clock)
            && Recovered(s.mem.delayed, r, s.clock)
            && Recovered(s.mem.inflight, r, s.clock)
            && SameDead(s.mem.dlq, r.dlq, s.clock)
  {
    FreshFull(cfg, start);
    FullRun(Fresh(cfg, start), run);
    RestartRefines(Final(Fresh(cfg, start), run), now, dead);
  }

  lemma RestartRefines(s: State, now: Time, dead: seq<Msg>)
    requires Full(s) && !s.book.faulty && s.clock <= now && IsDead(Replayed(s.disk.log), dead)
    ensures Enabled(s, Restart(|s.disk.log|, now, dead))
    ensures var r := Step(s, Restart(|s.disk.log|, now, dead)).mem;
            && r.cfg == s.mem.cfg && r.seqNo == s.mem.seqNo
            && IdsOf(r.dlq) == IdsOf(s.mem.dlq) && r.inflight == map[] && r.leases == map[]
            && Held(r) == Held(s.mem)
            && Recovered(s.mem.ready, r, s.clock)
            && Recovered(s.mem.delayed, r, s.clock)
            && Recovered(s.mem.inflight, r, s.clock)
            && SameDead(s.mem.dlq, r.dlq, s.clock)
  {
    hide IsDead, Recovered, Durably, IdsOf, Held, LeaseBijection, EnqueuesOnly, SameDead;
    var r := Replayed(s.disk.log);
    assert s.disk.Written()[..|s.disk.log|] == s.disk.log;
    LogSound(s);
    SoundLater(r, s.clock, now);
    LiveIsKeyed(s.disk.log);
    RestoredHolds(r, dead, now);
    HeapRecovered(s.mem.ready, r, dead, s.clock, now, true);
    HeapRecovered(s.mem.delayed, r, dead, s.clock, now, false);
    HeapRecovered(s.mem.inflight, r, dead, s.clock, now, true);
    DeadRecovered(s, r, dead);
  }

  /** A dead letter of memory is one of the log, unchanged. */
  lemma DeadIsLogged(s: State, r: Staging, m: Msg)
    requires Agrees(s, r) && m in s.mem.dlq
    ensures m.id in r.dlq && m.id in r.live && SameMsg(m, r.live[m.id].Unleased(), s.clock)
    ensures SameMsg(r.live[m.id].Unleased(), m, s.clock)
  {
    hide Held, HeapAgrees;
    MatchesIsSame(m, r.live[m.id], s.clock);
    SameWiped(m, r.live[m.id], s.clock);
  }

  lemma SameWiped(a: Msg, b: Msg, clock: Time)
    requires SameMsg(a, b, clock)
    ensures SameMsg(a, b.Unleased(), clock) && SameMsg(b.Unleased(), a, clock)
  {
    assert forall t :: b.Unleased().Ready(t) == b.Ready(t);
  }

  lemma DeadRecovered(s: State, r: Staging, dead: seq<Msg>)
    requires Agrees(s, r) && IsDead(r, dead)
    ensures SameDead(s.mem.dlq, dead, s.clock)
  {
    hide Parts, SameMsg;
    forall m | m in s.mem.dlq
      ensures Among(m, dead, s.clock)
    {
      DeadIsLogged(s, r, m);
      assert r.live[m.id].Unleased() in dead;
    }
    forall m | m in dead
      ensures Among(m, s.mem.dlq, s.clock)
    {
      var d :| d in s.mem.dlq && d.id == m.id;
      DeadIsLogged(s, r, d);
    }
  }

  // ---------- compaction ----------

  /** Two logs that recover to queues with the same config, counter and messages, and
      the same eligibility. */
  ghost predicate SameMeaning(a: Staging, b: Staging, clock: Time) {
    && a.cfg == b.cfg && a.dlq == b.dlq && a.maxSeq == b.maxSeq && a.live.Keys == b.live.Keys
    && forall id :: id in a.live ==> SameMsg(a.live[id], b.live[id], clock)
  }

  lemma SameThrough(m: Msg, a: Msg, b: Msg, clock: Time)
    requires Matches(m, a, clock, 0) && Matches(m, b, clock, 0)
    ensures SameMsg(a, b, clock)
  {
  }

  /** Two logs that agree with the same memory mean the same. */
  lemma AgreeingMeanSame(s: State, a: Staging, b: Staging)
    requires Agrees(s, a) && Agrees(s, b) && !s.book.faulty
    ensures SameMeaning(a, b, s.clock)
  {
    forall id | id in a.live
      ensures SameMsg(a.live[id], b.live[id], s.clock)
    {
      hide SameMsg, Matches;
      if id in s.mem.ready {
        SameThrough(s.mem.ready[id], a.live[id], b.live[id], s.clock);
      } else if id in s.mem.delayed {
        SameThrough(s.mem.delayed[id], a.live[id], b.live[id], s.clock);
      } else if id in s.mem.inflight {
        SameThrough(s.mem.inflight[id], a.live[id], b.live[id], s.clock);
      } else {
        var m :| m in s.mem.dlq && m.id == id;
        SameThrough(m, a.live[id], b.live[id], s.clock);
      }
    }
  }

  /** While no append has failed since the last restart, the compacted log means
      what the old log meant, down to the sequence counter of a drained queue. */
  lemma CompactionPreservesMeaning(s: State, order: seq<Msg>)
    requires Full(s) && !s.book.faulty && Enabled(s, Compact(order))
    ensures SameMeaning(Replayed(s.disk.log), Replayed(Step(s, Compact(order)).disk.log), s.clock)
  {
    var t := Step(s, Compact(order));
    FullStep(s, Compact(order));
    assert Agrees(s, Replayed(s.disk.log)) && Agrees(t, Replayed(t.disk.log));
    assert Agrees(s, Replayed(t.disk.log)) by {
      assert t.mem == s.mem && s.book.dropped == {};
    }
    AgreeingMeanSame(s, Replayed(s.disk.log), Replayed(t.disk.log));
  }

  /** Two heaps hold the same messages. */
  ghost predicate SameHeap(a: map<Id, Msg>, b: map<Id, Msg>, clock: Time) {
    a.Keys == b.Keys && forall id :: id in a ==> SameMsg(a[id], b[id], clock)
  }

  /** Logs of one meaning recover, at any time, to queues with the same config,
      counter, ready messages, delayed messages and dead letters. */
  lemma SameMeaningSameQueue(a: Staging, b: Staging, clock: Time, now: Time, dead: seq<Msg>, dead': seq<Msg>)
    requires SameMeaning(a, b, clock) && clock <= now && a.cfg.Some?
    requires IsDead(a, dead) && IsDead(b, dead')
    ensures var x, y := Restored(a, dead, now), Restored(b, dead', now);
            && x.cfg == y.cfg && x.seqNo == y.seqNo
            && SameHeap(x.ready, y.ready, now) && SameHeap(x.delayed, y.delayed, now)
            && SameDead(x.dlq, y.dlq, now)
  {
    hide SameMsg, IsDead, SameDead;
    forall id | id in a.live
      ensures a.live[id].Ready(now) <==> b.live[id].Ready(now)
      ensures SameMsg(a.live[id].Unleased(), b.live[id].Unleased(), now)
    {
      SameLater(a.live[id], b.live[id], clock, now);
    }
    SameDeadLists(a, b, clock, now, dead, dead');
  }

  lemma SameLater(a: Msg, b: Msg, clock: Time, now: Time)
    requires SameMsg(a, b, clock) && clock <= now
    ensures SameMsg(a.Unleased(), b.Unleased(), now) && SameMsg(b.Unleased(), a.Unleased(), now)
    ensures a.Ready(now) <==> b.Ready(now)
  {
    assert forall t :: a.Unleased().Ready(t) == a.Ready(t) && b.Unleased().Ready(t) == b.Ready(t);
  }

  lemma SameDeadLists(a: Staging, b: Staging, clock: Time, now: Time, dead: seq<Msg>, dead': seq<Msg>)
    requires SameMeaning(a, b, clock) && clock <= now && IsDead(a, dead) && IsDead(b, dead')
    ensures SameDead(dead, dead', now)
  {
    hide SameMsg;
    forall m | m in dead
      ensures Among(m, dead', now)
    {
      SameLater(a.live[m.id], b.live[m.id], clock, now);
      assert b.live[m.id].Unleased() in dead';
    }
    forall m | m in dead'
      ensures Among(m, dead, now)
    {
      SameLater(a.live[m.id], b.live[m.id], clock, now);
      assert a.live[m.id].Unleased() in dead;
    }
  }

  /** Compaction keeps every message of the log that memory has not dropped. */
  lemma CompactionKeepsHeld(s: State, order: seq<Msg>)
    requires Full(s) && Enabled(s, Compact(order))
    ensures Replayed(Step(s, Compact(order)).disk.log).live.Keys == Replayed(s.disk.log).live.Keys - s.book.dropped
    ensures s.book.dropped <= Replayed(s.disk.log).live.Keys
  {
    hide Full, Step, Enabled, Kept;
    FullStep(s, Compact(order));
    KeptStep(s, Compact(order));
    KeptIsLive(s);
    KeptIsLive(Step(s, Compact(order)));
    DroppedIsKept(s);
  }

  /** In any run, failed appends included, compaction keeps a message of the log
      exactly when no failed OpNack append has dropped it since the last restart. */
  lemma CompactionKeepsUnlessDropped(cfg: Config, start: Time, run: seq<Event>, order: seq<Msg>, id: Id)
    requires cfg.Normalized() == cfg && Legal(Fresh(cfg, start), run)
    requires Enabled(Final(Fresh(cfg, start), run), Compact(order))
    ensures var s := Final(Fresh(cfg, start), run);
            id in Replayed(Step(s, Compact(order)).disk.log).live <==>
            id in Replayed(s.disk.log).live && !Dropped(Fresh(cfg, start), run, id)
  {
    hide Full, Step, Enabled, Legal, Final, Dropped, Replayed;
    var init := Fresh(cfg, start);
    FreshFull(cfg, start);
    FullRun(init, run);
    BookIsRun(init, run, id);
    CompactionKeepsHeld(Final(init, run), order);
  }

  const INIT: State := Fresh(Config("q", FIFO, false, 0, 30000), 0)
  const SENT: seq<Event> := [Enqueue("a", "", 0, 0, Ok), Lease("a", "r", 10)]

  lemma SendAndLease()
    ensures Legal(INIT, SENT) && Accepted(SENT) == {"a"} && AckWritten(INIT, SENT) == {}
    ensures var s := Final(INIT, SENT);
            && s.mem.inflight.Keys == {"a"} && s.mem.inflight["a"].id == "a" && s.mem.inflight["a"].receipt == "r"
            && s.mem.leases == map["r" := "a"] && s.mem.ready == map[] && s.mem.delayed == map[]
            && s.mem.dlq == [] && s.mem.cfg == INIT.mem.cfg && s.mem.seqNo == 1 && !s.disk.latched
  {
    OneMore(INIT, [], SENT[0]);
    ToldOneMore(INIT, [], SENT[0]);
    assert [] + [SENT[0]] == [SENT[0]];
    OneMore(INIT, [SENT[0]], SENT[1]);
    ToldOneMore(INIT, [SENT[0]], SENT[1]);
    assert [SENT[0]] + [SENT[1]] == SENT;
  }

  const NACKED: seq<Event> := SENT + [Nack("r", 0, NotWritten)]

  lemma NackDrops()
    ensures Legal(INIT, NACKED) && Accepted(NACKED) == {"a"} && AckWritten(INIT, NACKED) == {}
    ensures var s := Final(INIT, NACKED);
            && s.mem.inflight == map[] && s.mem.ready == map[] && s.mem.delayed == map[] && s.mem.dlq == []
            && s.mem.cfg == INIT.mem.cfg && s.mem.seqNo == 1 && !s.disk.latched
  {
    SendAndLease();
    hide Accepted, AckWritten, Acked, Legal, Final;
    OneMore(INIT, SENT, Nack("r", 0, NotWritten));
    ToldOneMore(INIT, SENT, Nack("r", 0, NotWritten));
  }

  /** Such a loss, step by step: a message is enqueued and leased, the record of
      its nack cannot be written, and compaction then forgets the message although
      its Enqueue succeeded and nobody acknowledged it. */
  lemma CompactionLosesDroppedMessage()
    ensures var run := NACKED + [Compact([])];
            && Legal(INIT, run)
            && "a" in Accepted(run) - AckWritten(INIT, run)
            && "a" !in Replayed(Final(INIT, run).disk.Written()).live
  {
    hide Accepted, AckWritten, Acked, Legal, Final, Replayed;
    NackDrops();
    OneMore(INIT, NACKED, Compact([]));
    ToldOneMore(INIT, NACKED, Compact([]));
    assert Final(INIT, NACKED + [Compact([])]).disk.Written() == [CreateRecord(INIT.mem.cfg, 1)];
    CreateReads(INIT.mem.cfg, 1);
  }
}
