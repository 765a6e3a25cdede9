/** Memory and log tell the same story: in every state of every run, reading the
    acknowledged log back gives the messages in memory, plus those a failed
    append dropped from it. */
module Agreement {
  import opened Msgs
  import opened Recovery
  import opened Model
  import opened Partition

  /** l, read from the log, stands for m in memory. The log may be ahead by
      slack attempts. The two visibility times agree, or both have passed. */
  ghost predicate Matches(m: Msg, l: Msg, clock: Time, slack: nat) {
    && l.id == m.id && l.body == m.body && l.priority == m.priority
    && l.seqNo == m.seqNo && l.enqueuedAt == m.enqueuedAt
    && m.attempts <= l.attempts <= m.attempts + slack
    && (l.visibleAt == m.visibleAt || (l.visibleAt <= clock && m.visibleAt <= clock))
  }

  ghost predicate HeapAgrees(h: map<Id, Msg>, live: map<Id, Msg>, clock: Time, slack: nat, due: bool) {
    forall id :: id in h ==>
      && id in live && Matches(h[id], live[id], clock, slack)
      && (due ==> h[id].visibleAt <= clock)
  }

  ghost predicate DeadAgrees(dlq: seq<Msg>, live: map<Id, Msg>, clock: Time) {
    forall i :: 0 <= i < |dlq| ==>
      && dlq[i].id in live && Matches(dlq[i], live[dlq[i].id], clock, 0)
      && dlq[i].visibleAt <= clock
  }

  /** Only a message in ready can have a lease record that was rolled back. */
  ghost function Slack(s: State): nat {
    if s.book.faulty then 1 else 0
  }

  /** Everything in memory is in the log, message by message. */
  ghost predicate Parts(mem: Memory, live: map<Id, Msg>, clock: Time, slack: nat) {
    && HeapAgrees(mem.ready, live, clock, slack, true)
    && HeapAgrees(mem.delayed, live, clock, 0, false)
    && HeapAgrees(mem.inflight, live, clock, 0, true)
    && DeadAgrees(mem.dlq, live, clock)
  }

  /** Config, membership, dead letters and the sequence counter are in the log. */
  ghost predicate Header(s: State, r: Staging) {
    && r.cfg == Some(s.mem.cfg)
    && r.live.Keys == Held(s.mem) + s.book.dropped
    && r.dlq == IdsOf(s.mem.dlq)
    && r.maxSeq <= s.mem.seqNo && (!s.book.faulty ==> r.maxSeq == s.mem.seqNo && s.book.dropped == {})
  }

  ghost predicate Agrees(s: State, r: Staging) {
    Header(s, r) && Parts(s.mem, r.live, s.clock, Slack(s))
  }

  // ---------- reading one more record ----------

  lemma ReadOneMore(log: seq<Record>, rec: Record)
    ensures Replayed(log + [rec]) == Apply(Replayed(log), rec)
  {
    assert (log + [rec])[..|log|] == log;
  }

  /** The two maps hold the same under every other ID. */
  ghost predicate SameElsewhere(a: map<Id, Msg>, b: map<Id, Msg>, id: Id) {
    forall x :: x in a && x != id ==> x in b && b[x] == a[x]
  }

  lemma PartsElsewhere(mem: Memory, a: map<Id, Msg>, b: map<Id, Msg>, id: Id, clock: Time, slack: nat)
    requires Parts(mem, a, clock, slack) && SameElsewhere(a, b, id) && id !in Held(mem)
    ensures Parts(mem, b, clock, slack)
  {
    forall i | 0 <= i < |mem.dlq|
      ensures mem.dlq[i].id != id
    {
      assert mem.dlq[i] in mem.dlq;
    }
    hide Matches;
  }

  lemma PartsEndLease(mem: Memory, m: Msg, live: map<Id, Msg>, clock: Time, slack: nat)
    requires Parts(mem, live, clock, slack)
    ensures Parts(EndLease(mem, m), live, clock, slack)
  {
    hide Matches;
  }

  /** The slack only grows and the clock only moves on. */
  lemma PartsLater(mem: Memory, live: map<Id, Msg>, clock: Time, slack: nat, later: Time, more: nat)
    requires Parts(mem, live, clock, slack) && clock <= later && slack <= more
    ensures Parts(mem, live, later, more)
  {
  }

  lemma PartsPlace(mem: Memory, m: Msg, now: Time, live: map<Id, Msg>, clock: Time, slack: nat)
    requires Parts(mem, live, clock, slack) && now <= clock
    requires m.id in live && Matches(m, live[m.id], clock, 0)
    ensures Parts(Place(mem, m, now), live, clock, slack)
  {
    assert Matches(m, live[m.id], clock, slack);
    hide Matches;
  }

  lemma PartsDead(mem: Memory, m: Msg, live: map<Id, Msg>, clock: Time, slack: nat)
    requires Parts(mem, live, clock, slack)
    requires m.id in live && Matches(m, live[m.id], clock, 0) && m.visibleAt <= clock
    ensures Parts(mem.(dlq := mem.dlq + [m]), live, clock, slack)
  {
    hide Matches, HeapAgrees;
  }

  lemma PartsHead(mem: Memory, live: map<Id, Msg>, clock: Time, slack: nat)
    requires Parts(mem, live, clock, slack) && mem.dlq != []
    ensures Parts(mem.(dlq := mem.dlq[1..]), live, clock, slack)
  {
    hide Matches, HeapAgrees;
    var rest := mem.dlq[1..];
    assert forall i :: 0 <= i < |rest| ==> rest[i] == mem.dlq[i + 1];
  }

  // ---------- every step keeps memory and log in agreement ----------

  ghost predicate LogAgrees(s: State) {
    Agrees(s, Replayed(s.disk.log))
  }

  /** Message m is between two places: out of memory, still in the log. */
  ghost predicate Between(s: State, r: Staging, m: Msg) {
    && m.id !in Held(s.mem) && m.id !in s.book.dropped
    && m.id in r.live && Matches(m, r.live[m.id], s.clock, 0) && m.visibleAt <= s.clock
    && r.cfg == Some(s.mem.cfg)
    && r.live.Keys == Held(s.mem) + s.book.dropped + {m.id}
    && r.dlq == IdsOf(s.mem.dlq)
    && r.maxSeq <= s.mem.seqNo && (!s.book.faulty ==> r.maxSeq == s.mem.seqNo && s.book.dropped == {})
    && Parts(s.mem, r.live, s.clock, Slack(s))
  }

  lemma RetryDead(s: State, m: Msg, now: Time, delay: int, o: Outcome)
    requires Places(s.mem) && Between(s, Replayed(s.disk.log), m) && now <= s.clock
    requires s.mem.cfg.Exhausted(m)
    ensures LogAgrees(Retry(s, m, now, delay, o))
  {
    hide Parts, Matches;
    var r, rec := Replayed(s.disk.log), DeadRecord(s.mem.cfg.name, m.id);
    ReadOneMore(s.disk.log, rec);
    if o == Ok {
      IdsAppend(s.mem.dlq, m);
      PartsDead(s.mem, m, r.live, s.clock, Slack(s));
    } else {
      var back := m.(visibleAt := now);
      assert Matches(back, r.live[m.id], s.clock, 0) by { BackNow(m, r.live[m.id], s.clock, now); }
      PlaceHolds(s.mem, back, now);
      PartsLater(s.mem, r.live, s.clock, Slack(s), s.clock, 1);
      PartsPlace(s.mem, back, now, r.live, s.clock, 1);
    }
  }

  lemma BackNow(m: Msg, l: Msg, clock: Time, now: Time)
    requires Matches(m, l, clock, 0) && m.visibleAt <= clock && now <= clock
    ensures Matches(m.(visibleAt := now), l, clock, 0)
  {
  }

  lemma RetryBack(s: State, m: Msg, now: Time, delay: int)
    requires Between(s, Replayed(s.disk.log), m) && now <= s.clock
    requires !s.mem.cfg.Exhausted(m)
    ensures LogAgrees(Retry(s, m, now, delay, Ok))
  {
    hide Parts, HeapAgrees, DeadAgrees, Held, IdsOf;
    var r, back := Replayed(s.disk.log), m.(visibleAt := now + delay);
    var rec := NackRecord(s.mem.cfg.name, back);
    ReadOneMore(s.disk.log, rec);
    PlaceHolds(s.mem, back, now);
    PartsElsewhere(s.mem, r.live, Apply(r, rec).live, m.id, s.clock, Slack(s));
    PartsPlace(s.mem, back, now, Apply(r, rec).live, s.clock, Slack(s));
  }

  lemma RetryDrops(s: State, m: Msg, now: Time, delay: int, o: Outcome)
    requires Between(s, Replayed(s.disk.log), m)
    requires !s.mem.cfg.Exhausted(m) && o != Ok
    ensures LogAgrees(Retry(s, m, now, delay, o))
  {
    hide Parts, Matches, Held, IdsOf, Place;
    PartsLater(s.mem, Replayed(s.disk.log).live, s.clock, Slack(s), s.clock, 1);
  }

  lemma InflightMatches(s: State, id: Id)
    requires Inv(s) && LogAgrees(s) && id in s.mem.inflight
    ensures var m, live := s.mem.inflight[id], Replayed(s.disk.log).live;
            && m.id == id && id !in s.book.dropped && id in live
            && Matches(m.Unleased(), live[id], s.clock, 0) && m.visibleAt <= s.clock
  {
    hide LeaseBijection, EnqueuesOnly, DistinctIds, Tidy;
  }

  lemma EndedHeld(mem: Memory, id: Id, ended: Memory)
    requires Places(mem) && LeaseBijection(mem) && id in mem.inflight
    requires ended == EndLease(mem, mem.inflight[id]).(nacked := ended.nacked, expired := ended.expired)
    ensures Held(ended) == Held(mem) - {id} && Places(ended)
  {
    EndLeaseKeeps(mem, mem.inflight[id]);
  }

  /** Ending the lease of an inflight message leaves it between two places. */
  lemma EndLeaseBetween(s: State, id: Id, mem: Memory)
    requires Inv(s) && LogAgrees(s) && id in s.mem.inflight
    requires mem == EndLease(s.mem, s.mem.inflight[id]).(nacked := mem.nacked, expired := mem.expired)
    ensures Between(s.(mem := mem), Replayed(s.disk.log), s.mem.inflight[id].Unleased())
    ensures Places(mem)
  {
    hide LeaseBijection, Known, Places, Tidy, Matches, Held, IdsOf;
    var m, r := s.mem.inflight[id], Replayed(s.disk.log);
    InflightMatches(s, id);
    EndedHeld(s.mem, id, mem);
    PartsEndLease(s.mem, m, r.live, s.clock, Slack(s));
    HeldInflight(s.mem, id);
  }

  lemma HeldInflight(mem: Memory, id: Id)
    requires id in mem.inflight
    ensures id in Held(mem)
  {
  }

  lemma NackAgrees(s: State, e: Event)
    requires Inv(s) && LogAgrees(s) && e.Nack? && Leases(s.mem, e.receipt)
    ensures LogAgrees(NackStep(s, e))
  {
    hide Retry, EndLease, Inv, LogAgrees, Between;
    var m := s.mem.inflight[s.mem.leases[e.receipt]];
    var mem := EndLease(s.mem, m).(nacked := s.mem.nacked + 1);
    EndLeaseBetween(s, s.mem.leases[e.receipt], mem);
    RetryAgrees(s.(mem := mem), m.Unleased(), s.clock, e.delay, e.o);
  }

  lemma ExpireAgrees(s: State, e: Event)
    requires Inv(s) && LogAgrees(s) && e.Expire? && e.id in s.mem.inflight && e.now <= s.clock
    ensures LogAgrees(ExpireStep(s, e))
  {
    hide Retry, EndLease, Inv, LogAgrees, Between;
    var m := s.mem.inflight[e.id];
    var mem := EndLease(s.mem, m).(expired := s.mem.expired + 1);
    EndLeaseBetween(s, e.id, mem);
    RetryAgrees(s.(mem := mem), m.Unleased(), e.now, 0, e.o);
  }

  lemma RetryAgrees(s: State, m: Msg, now: Time, delay: int, o: Outcome)
    requires Places(s.mem) && Between(s, Replayed(s.disk.log), m) && now <= s.clock
    ensures LogAgrees(Retry(s, m, now, delay, o))
  {
    hide Retry, Places, Between, LogAgrees;
    if s.mem.cfg.Exhausted(m) {
      RetryDead(s, m, now, delay, o);
    } else if o == Ok {
      RetryBack(s, m, now, delay);
    } else {
      RetryDrops(s, m, now, delay, o);
    }
  }

  lemma EnqueueFails(s: State, e: Event)
    requires LogAgrees(s) && e.Enqueue? && e.o != Ok
    ensures LogAgrees(EnqueueStep(s, e))
  {
    hide Parts, IdsOf, Place;
    PartsLater(s.mem, Replayed(s.disk.log).live, s.clock, Slack(s), s.clock, 1);
    SameParts(s.mem, EnqueueStep(s, e).mem, Replayed(s.disk.log).live, s.clock, 1);
  }

  /** The new message matches its own record, and disturbs no other. */
  lemma EnqueueParts(s: State, e: Event)
    requires LogAgrees(s) && e.Enqueue? && e.o == Ok && e.id !in Held(s.mem)
    ensures var m := NewMsg(s, e);
            var live := Replayed(s.disk.log).live[m.id := m];
            Parts(EnqueueStep(s, e).mem, live, s.clock, Slack(s))
  {
    hide Parts, Held, IdsOf, Header;
    var live, m := Replayed(s.disk.log).live, NewMsg(s, e);
    var mem := s.mem.(seqNo := m.seqNo);
    PartsElsewhere(s.mem, live, live[m.id := m], m.id, s.clock, Slack(s));
    SameParts(s.mem, mem, live[m.id := m], s.clock, Slack(s));
    PartsPlace(mem, m, s.clock, live[m.id := m], s.clock, Slack(s));
    SameParts(Place(mem, m, s.clock), EnqueueStep(s, e).mem, live[m.id := m], s.clock, Slack(s));
  }

  lemma EnqueueAgrees(s: State, e: Event)
    requires Inv(s) && LogAgrees(s) && e.Enqueue? && e.id !in s.book.used && e.o == Ok
    ensures LogAgrees(EnqueueStep(s, e))
  {
    hide Parts, Places, LeaseBijection, EnqueuesOnly, IdsOf;
    var m := NewMsg(s, e);
    ReadOneMore(s.disk.log, EnqueueRecord(s.mem.cfg.name, m));
    EnqueueParts(s, e);
    PlaceHolds(s.mem.(seqNo := m.seqNo), m, s.clock);
    assert Held(EnqueueStep(s, e).mem) == Held(s.mem) + {m.id};
  }

  /** Counters, the wake channel and the lease table do not matter. */
  lemma SameParts(mem: Memory, mem': Memory, live: map<Id, Msg>, clock: Time, slack: nat)
    requires Parts(mem, live, clock, slack)
    requires mem'.ready == mem.ready && mem'.delayed == mem.delayed
    requires mem'.inflight == mem.inflight && mem'.dlq == mem.dlq
    ensures Parts(mem', live, clock, slack)
  {
  }

  lemma PromoteAgrees(s: State, e: Event)
    requires Inv(s) && LogAgrees(s) && e.Promote? && Enabled(s, e)
    ensures LogAgrees(Step(s, e))
  {
    hide Held, IdsOf, Parts, EnqueuesOnly;
    PromoteKeeps(s, e);
    PromoteParts(s.mem, e.id, Replayed(s.disk.log).live, s.clock, Slack(s));
    var mem := s.mem.(delayed := s.mem.delayed - {e.id}, ready := s.mem.ready[e.id := s.mem.delayed[e.id]]);
    SameParts(mem, Step(s, e).mem, Replayed(s.disk.log).live, s.clock, Slack(s));
  }

  lemma PromoteParts(mem: Memory, id: Id, live: map<Id, Msg>, clock: Time, slack: nat)
    requires Parts(mem, live, clock, slack) && id in mem.delayed && mem.delayed[id].visibleAt <= clock
    ensures Parts(mem.(delayed := mem.delayed - {id}, ready := mem.ready[id := mem.delayed[id]]), live, clock, slack)
  {
    hide Matches;
    MatchesMore(mem.delayed[id], live[id], clock, slack);
  }

  lemma MatchesMore(m: Msg, l: Msg, clock: Time, slack: nat)
    requires Matches(m, l, clock, 0)
    ensures Matches(m, l, clock, slack)
  {
  }

  lemma ExtendAgrees(s: State, e: Event)
    requires Inv(s) && LogAgrees(s) && e.Extend? && Leases(s.mem, e.receipt)
    ensures LogAgrees(ExtendStep(s, e))
  {
    hide IdsOf, EnqueuesOnly;
    assert Held(ExtendStep(s, e).mem) == Held(s.mem);
  }

  lemma AckAgrees(s: State, e: Event)
    requires Inv(s) && LogAgrees(s) && e.Ack? && Leases(s.mem, e.receipt) && e.o == Ok
    ensures LogAgrees(AckStep(s, e))
  {
    hide Parts, EnqueuesOnly;
    var m, r := s.mem.inflight[s.mem.leases[e.receipt]], Replayed(s.disk.log);
    ReadOneMore(s.disk.log, AckRecord(s.mem.cfg.name, m.id));
    EndLeaseKeeps(s.mem, m);
    PartsEndLease(s.mem, m, r.live, s.clock, Slack(s));
    PartsElsewhere(EndLease(s.mem, m), r.live, r.live - {m.id}, m.id, s.clock, Slack(s));
    SameParts(EndLease(s.mem, m), AckStep(s, e).mem, r.live - {m.id}, s.clock, Slack(s));
  }

  /** Taking a message out of ready, and what is known about it. */
  lemma PartsTake(mem: Memory, id: Id, live: map<Id, Msg>, clock: Time, slack: nat)
    requires Places(mem) && Parts(mem, live, clock, slack) && id in mem.ready
    ensures Parts(mem.(ready := mem.ready - {id}), live, clock, slack)
    ensures id !in Held(mem.(ready := mem.ready - {id})) && mem.ready[id].id == id
    ensures id in live && Matches(mem.ready[id], live[id], clock, slack) && mem.ready[id].visibleAt <= clock
  {
    hide Matches;
  }

  lemma PartsInflight(mem: Memory, m: Msg, live: map<Id, Msg>, clock: Time, slack: nat)
    requires Parts(mem, live, clock, slack)
    requires m.id in live && Matches(m, live[m.id], clock, 0) && m.visibleAt <= clock
    ensures Parts(mem.(inflight := mem.inflight[m.id := m]), live, clock, slack)
  {
    hide Matches;
  }

  lemma PartsReady(mem: Memory, m: Msg, live: map<Id, Msg>, clock: Time, slack: nat)
    requires Parts(mem, live, clock, slack)
    requires m.id in live && Matches(m, live[m.id], clock, slack) && m.visibleAt <= clock
    ensures Parts(mem.(ready := mem.ready[m.id := m]), live, clock, slack)
  {
    hide Matches;
  }

  lemma LeaseAgrees(s: State, e: Event)
    requires Inv(s) && LogAgrees(s) && e.Lease? && e.id in s.mem.ready
    ensures LogAgrees(LeaseStep(s, e))
  {
    hide Parts, Places, Known, LeaseBijection, Held, IdsOf;
    var m, r := s.mem.ready[e.id].Leased(e.receipt, e.expiry), Replayed(s.disk.log);
    var rec, mem := LeaseRecord(s.mem.cfg.name, m), s.mem.(ready := s.mem.ready - {e.id});
    ReadOneMore(s.disk.log, rec);
    PartsTake(s.mem, e.id, r.live, s.clock, Slack(s));
    PartsElsewhere(mem, r.live, Apply(r, rec).live, e.id, s.clock, Slack(s));
    PartsInflight(mem, m, Apply(r, rec).live, s.clock, Slack(s));
    SameParts(mem.(inflight := mem.inflight[m.id := m]), LeaseStep(s, e).mem, Apply(r, rec).live, s.clock, Slack(s));
    LeaseHolds(s, e);
  }

  lemma RollBackAgrees(s: State, e: Event)
    requires Inv(s) && LogAgrees(s) && e.RollBack? && e.id in s.mem.ready
    ensures LogAgrees(RollBackStep(s, e))
  {
    hide Parts, Places, Known, LeaseBijection, Held, IdsOf;
    var m, r := s.mem.ready[e.id], Replayed(s.disk.log);
    var rec, mem := LeaseRecord(s.mem.cfg.name, m.Leased(e.receipt, e.expiry)), s.mem.(ready := s.mem.ready - {e.id});
    ReadOneMore(s.disk.log, rec);
    PartsTake(s.mem, e.id, r.live, s.clock, Slack(s));
    PartsElsewhere(mem, r.live, Apply(r, rec).live, e.id, s.clock, Slack(s));
    PartsLater(mem, Apply(r, rec).live, s.clock, Slack(s), s.clock, 1);
    PartsReady(mem, m, Apply(r, rec).live, s.clock, 1);
    assert mem.ready[m.id := m] == s.mem.ready;
  }

  lemma HeadMatches(mem: Memory, live: map<Id, Msg>, clock: Time, slack: nat)
    requires Parts(mem, live, clock, slack) && mem.dlq != []
    ensures var m := mem.dlq[0]; m.id in live && Matches(m, live[m.id], clock, 0) && m.visibleAt <= clock
  {
  }

  lemma ReplayAgrees(s: State, e: Event)
    requires Inv(s) && LogAgrees(s) && e.ReplayHead? && s.mem.dlq != [] && e.o == Ok
    ensures LogAgrees(ReplayStep(s, e))
  {
    hide Parts, EnqueuesOnly, IdsOf;
    var m, r := s.mem.dlq[0], Replayed(s.disk.log);
    var rec := ReplayRecord(s.mem.cfg.name, m.id);
    ReadOneMore(s.disk.log, rec);
    HeadLeaves(s.mem);
    IdsTail(s.mem.dlq);
    var mem, back := s.mem.(dlq := s.mem.dlq[1..]), m.(attempts := 0, visibleAt := s.clock);
    PartsHead(s.mem, r.live, s.clock, Slack(s));
    HeadMatches(s.mem, r.live, s.clock, Slack(s));
    PartsElsewhere(mem, r.live, Apply(r, rec).live, m.id, s.clock, Slack(s));
    PartsPlace(mem, back, s.clock, Apply(r, rec).live, s.clock, Slack(s));
    PlaceHolds(mem, back, s.clock);
  }
}
