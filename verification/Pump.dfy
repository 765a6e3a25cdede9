/** The pump looks only at the root of each time heap; what it achieves is a full
    scan (advanceLocked, queue/queue.go:401-440). */
module Pump {
  import opened Msgs
  import opened Model
  import opened Partition

  /** The message has been delivered as often as the queue allows. */
  ghost predicate Spent(cfg: Config, m: Msg) {
    cfg.maxAttempts > 0 && m.attempts >= cfg.maxAttempts
  }

  /** An expired lease, wiped and due again at once. */
  ghost function Reclaimed(m: Msg, now: Time): Msg {
    m.Unleased().(visibleAt := now)
  }

  /** The messages a consumer may get at time now: ready ones, delayed ones that
      are due, and those of expired leases with attempts left. */
  ghost function EligibleIds(mem: Memory, now: Time): set<Id> {
    mem.ready.Keys
    + (set id | id in mem.delayed && mem.delayed[id].visibleAt <= now)
    + (set id | id in mem.inflight && mem.inflight[id].leaseExpiry <= now && !Spent(mem.cfg, mem.inflight[id]))
  }

  ghost function Eligible(mem: Memory, now: Time): map<Id, Msg> {
    map id | id in EligibleIds(mem, now) ::
      if id in mem.ready then mem.ready[id]
      else if id in mem.delayed then mem.delayed[id]
      else Reclaimed(mem.inflight[id], now)
  }

  /** dlq is the dead letters of m0, followed by exhausted messages whose leases
      have expired, each with its lease wiped and otherwise unchanged. */
  ghost predicate Buried(m0: Memory, dlq: seq<Msg>, now: Time) {
    && m0.dlq <= dlq
    && forall i :: |m0.dlq| <= i < |dlq| ==>
         && dlq[i].id in m0.inflight && dlq[i] == m0.inflight[dlq[i].id].Unleased()
         && m0.inflight[dlq[i].id].leaseExpiry <= now && Spent(m0.cfg, m0.inflight[dlq[i].id])
  }

  /** The pump has got from m0 to m, moving only what is due. */
  ghost predicate Pumping(m0: Memory, m: Memory, now: Time) {
    && m.cfg == m0.cfg
    && (forall id :: id in m.delayed ==> id in m0.delayed && m.delayed[id] == m0.delayed[id])
    && (forall id :: id in m0.delayed && id !in m.delayed ==>
          m0.delayed[id].visibleAt <= now && id in m.ready && m.ready[id] == m0.delayed[id])
    && (forall id :: id in m.inflight ==> id in m0.inflight && m.inflight[id] == m0.inflight[id])
    && (forall id :: id in m0.inflight && id !in m.inflight ==>
          && m0.inflight[id].leaseExpiry <= now
          && (if Spent(m0.cfg, m0.inflight[id]) then id in IdsOf(m.dlq)
              else id in m.ready && m.ready[id] == Reclaimed(m0.inflight[id], now)))
    && (forall id :: id in m0.ready ==> id in m.ready && m.ready[id] == m0.ready[id])
    && (forall id :: id in m.ready ==> id in m0.ready || id in m0.delayed || id in m0.inflight)
    && (forall id :: id in IdsOf(m.dlq) ==>
          id in IdsOf(m0.dlq) || (id in m0.inflight && Spent(m0.cfg, m0.inflight[id])))
    && (forall id :: id in IdsOf(m0.dlq) ==> id in IdsOf(m.dlq))
    && Buried(m0, m.dlq, now)
  }

  /** Nothing due is left behind. */
  ghost predicate Settled(m: Memory, now: Time) {
    && (forall id :: id in m.delayed ==> m.delayed[id].visibleAt > now)
    && (forall id :: id in m.inflight ==> m.inflight[id].leaseExpiry > now)
  }

  /** m is what scanning everything in m0 at time now would make of it. */
  ghost predicate Scanned(m0: Memory, m: Memory, now: Time) {
    && m.delayed == (map id | id in m0.delayed && m0.delayed[id].visibleAt > now :: m0.delayed[id])
    && m.inflight == (map id | id in m0.inflight && m0.inflight[id].leaseExpiry > now :: m0.inflight[id])
    && m.ready == Eligible(m0, now)
    && IdsOf(m.dlq) == IdsOf(m0.dlq) +
         (set id | id in m0.inflight && m0.inflight[id].leaseExpiry <= now && Spent(m0.cfg, m0.inflight[id]))
    && Buried(m0, m.dlq, now)
  }

  lemma PumpStarts(m0: Memory, now: Time)
    ensures Pumping(m0, m0, now)
  {
  }

  lemma PromoteKeepsPumping(m0: Memory, s: State, id: Id, now: Time)
    requires Places(m0) && Places(s.mem) && Pumping(m0, s.mem, now) && Enabled(s, Promote(id, now))
    ensures Pumping(m0, Step(s, Promote(id, now)).mem, now)
  {
    hide IdsOf, DistinctIds, Buried;
  }

  /** An expiry whose record is written: to the dead letters, or back to ready. */
  lemma ExpireMem(s: State, id: Id, now: Time)
    requires Inv(s) && Enabled(s, Expire(id, now, Ok))
    ensures var m, mem := s.mem.inflight[id], EndLease(s.mem, s.mem.inflight[id]).(expired := s.mem.expired + 1);
            Step(s, Expire(id, now, Ok)).mem ==
            if Spent(s.mem.cfg, m) then mem.(dlq := mem.dlq + [m.Unleased()])
            else mem.(ready := mem.ready[id := Reclaimed(m, now)], owed := true)
  {
    hide Known, LeaseBijection;
  }

  lemma BackKeepsPumping(m0: Memory, m: Memory, id: Id, now: Time, t: Memory)
    requires Places(m) && Places(m0) && Pumping(m0, m, now) && id in m.inflight && m.inflight[id].leaseExpiry <= now
    requires !Spent(m.cfg, m.inflight[id])
    requires t == m.(inflight := m.inflight - {id}, ready := m.ready[id := Reclaimed(m.inflight[id], now)],
                     leases := t.leases, expired := t.expired, owed := t.owed)
    ensures Pumping(m0, t, now)
  {
    hide IdsOf, DistinctIds, Reclaimed, Buried;
  }

  lemma BuryOneMore(m0: Memory, m: Memory, id: Id, now: Time)
    requires Places(m) && Pumping(m0, m, now) && id in m.inflight && m.inflight[id].leaseExpiry <= now
    requires Spent(m.cfg, m.inflight[id])
    ensures Buried(m0, m.dlq + [m.inflight[id].Unleased()], now)
  {
    hide IdsOf, DistinctIds, Reclaimed;
  }

  lemma DeadKeepsPumping(m0: Memory, m: Memory, id: Id, now: Time, t: Memory)
    requires Places(m) && Pumping(m0, m, now) && id in m.inflight && m.inflight[id].leaseExpiry <= now
    requires Spent(m.cfg, m.inflight[id])
    requires t == m.(inflight := m.inflight - {id}, dlq := t.dlq,
                     leases := t.leases, expired := t.expired, owed := t.owed)
    requires IdsOf(t.dlq) == IdsOf(m.dlq) + {id} && Buried(m0, t.dlq, now)
    ensures Pumping(m0, t, now)
  {
    hide IdsOf, DistinctIds, Reclaimed, Buried;
  }

  lemma ExpireKeepsPumping(m0: Memory, s: State, id: Id, now: Time)
    requires Places(m0) && Inv(s) && Pumping(m0, s.mem, now) && Enabled(s, Expire(id, now, Ok))
    ensures Pumping(m0, Step(s, Expire(id, now, Ok)).mem, now)
  {
    hide Pumping, Step, IdsOf, DistinctIds, LeaseBijection, Known;
    var m, t := s.mem.inflight[id], Step(s, Expire(id, now, Ok)).mem;
    ExpireMem(s, id, now);
    if Spent(s.mem.cfg, m) {
      IdsAppend(s.mem.dlq, m.Unleased());
      BuryOneMore(m0, s.mem, id, now);
      DeadKeepsPumping(m0, s.mem, id, now, t);
    } else {
      BackKeepsPumping(m0, s.mem, id, now, t);
    }
  }

  lemma PumpedReady(m0: Memory, m: Memory, now: Time)
    requires Places(m0) && Places(m) && Pumping(m0, m, now) && Settled(m, now)
    ensures m.ready == Eligible(m0, now)
  {
    hide IdsOf, DistinctIds, Buried;
    assert forall id :: id in m.ready <==> id in EligibleIds(m0, now);
  }

  lemma PumpedDead(m0: Memory, m: Memory, now: Time)
    requires Places(m) && Pumping(m0, m, now) && Settled(m, now)
    ensures IdsOf(m.dlq) == IdsOf(m0.dlq) +
            (set id | id in m0.inflight && m0.inflight[id].leaseExpiry <= now && Spent(m0.cfg, m0.inflight[id]))
  {
    hide IdsOf, DistinctIds, Buried;
  }

  /** When nothing due is left, the pump has done a full scan. */
  lemma PumpedIsScanned(m0: Memory, m: Memory, now: Time)
    requires Places(m0) && Places(m) && Pumping(m0, m, now) && Settled(m, now)
    ensures Scanned(m0, m, now)
  {
    hide IdsOf, DistinctIds, Eligible, Buried;
    PumpedReady(m0, m, now);
    PumpedDead(m0, m, now);
  }
}
