/** The lifetime counters add up in every state, failed appends included. */
module Counters {
  import opened Msgs
  import opened Recovery
  import opened Model
  import opened Partition

  ghost predicate Balanced(s: State) {
    && s.mem.delivered == s.mem.acked + s.mem.nacked + s.mem.expired + |s.mem.inflight|
    && s.mem.enqueued + s.book.restored ==
       |s.mem.ready| + |s.mem.delayed| + |s.mem.inflight| + |s.mem.dlq| + s.mem.acked + s.book.drops
  }

  lemma Shrinks(m: map<Id, Msg>, id: Id)
    requires id in m
    ensures |m - {id}| == |m| - 1
  {
    assert (m - {id}).Keys == m.Keys - {id};
  }

  lemma PlaceCounts(mem: Memory, m: Msg, now: Time)
    requires m.id !in Held(mem)
    ensures |Place(mem, m, now).ready| + |Place(mem, m, now).delayed| == |mem.ready| + |mem.delayed| + 1
    ensures Place(mem, m, now) == mem.(ready := Place(mem, m, now).ready, delayed := Place(mem, m, now).delayed,
                                       owed := Place(mem, m, now).owed)
  {
    hide IdsOf;
  }

  /** The message on its way through Retry is counted as held until it lands. */
  lemma RetryBalances(s: State, m: Msg, now: Time, delay: int, o: Outcome)
    requires m.id !in Held(s.mem)
    requires s.mem.delivered == s.mem.acked + s.mem.nacked + s.mem.expired + |s.mem.inflight|
    requires s.mem.enqueued + s.book.restored ==
             |s.mem.ready| + |s.mem.delayed| + |s.mem.inflight| + |s.mem.dlq| + s.mem.acked + s.book.drops + 1
    ensures Balanced(Retry(s, m, now, delay, o))
  {
    hide Held, Place;
    PlaceCounts(s.mem, m.(visibleAt := now), now);
    PlaceCounts(s.mem, m.(visibleAt := now + delay), now);
  }

  lemma NackBalances(s: State, e: Event)
    requires Inv(s) && Balanced(s) && e.Nack? && Leases(s.mem, e.receipt)
    ensures Balanced(NackStep(s, e))
  {
    hide Retry, EndLease, Held, Inv;
    var id := s.mem.leases[e.receipt];
    var m := s.mem.inflight[id];
    var mem := EndLease(s.mem, m).(nacked := s.mem.nacked + 1);
    EndedBalances(s, id, mem);
    RetryBalances(s.(mem := mem), m.Unleased(), s.clock, e.delay, e.o);
  }

  lemma ExpireBalances(s: State, e: Event)
    requires Inv(s) && Balanced(s) && e.Expire? && e.id in s.mem.inflight
    ensures Balanced(ExpireStep(s, e))
  {
    hide Retry, EndLease, Held, Inv;
    var m := s.mem.inflight[e.id];
    var mem := EndLease(s.mem, m).(expired := s.mem.expired + 1);
    EndedBalances(s, e.id, mem);
    RetryBalances(s.(mem := mem), m.Unleased(), e.now, 0, e.o);
  }

  lemma EndedBalances(s: State, id: Id, mem: Memory)
    requires Inv(s) && Balanced(s) && id in s.mem.inflight
    requires || mem == EndLease(s.mem, s.mem.inflight[id]).(nacked := s.mem.nacked + 1)
             || mem == EndLease(s.mem, s.mem.inflight[id]).(expired := s.mem.expired + 1)
    ensures id !in Held(mem) && s.mem.inflight[id].id == id
    ensures mem.delivered == mem.acked + mem.nacked + mem.expired + |mem.inflight|
    ensures mem.enqueued + s.book.restored ==
            |mem.ready| + |mem.delayed| + |mem.inflight| + |mem.dlq| + mem.acked + s.book.drops + 1
  {
    EndedKeeps(s, id, mem);
    Shrinks(s.mem.inflight, id);
    hide Inv, Held;
  }

  lemma LeaseBalances(s: State, e: Event)
    requires Places(s.mem) && Balanced(s) && e.Lease? && e.id in s.mem.ready
    ensures Balanced(LeaseStep(s, e))
  {
    hide IdsOf, DistinctIds;
    Shrinks(s.mem.ready, e.id);
  }

  lemma PromoteBalances(s: State, e: Event)
    requires Places(s.mem) && Balanced(s) && e.Promote? && Enabled(s, e)
    ensures Balanced(Step(s, e))
  {
    hide IdsOf, DistinctIds;
    Shrinks(s.mem.delayed, e.id);
  }

  lemma AckBalances(s: State, e: Event)
    requires Places(s.mem) && Balanced(s) && e.Ack? && Leases(s.mem, e.receipt)
    ensures Balanced(AckStep(s, e))
  {
    hide IdsOf, DistinctIds;
    Shrinks(s.mem.inflight, s.mem.leases[e.receipt]);
  }

  lemma ExtendBalances(s: State, e: Event)
    requires Places(s.mem) && Balanced(s) && e.Extend? && Leases(s.mem, e.receipt)
    ensures Balanced(ExtendStep(s, e))
  {
    hide IdsOf, DistinctIds;
  }

  lemma EnqueueBalances(s: State, e: Event)
    requires Inv(s) && Balanced(s) && e.Enqueue? && e.id !in s.book.used
    ensures Balanced(EnqueueStep(s, e))
  {
    hide IdsOf, LeaseBijection, EnqueuesOnly;
    var mem := s.mem.(seqNo := NewMsg(s, e).seqNo);
    assert Held(mem) == Held(s.mem);
    PlaceCounts(mem, NewMsg(s, e), s.clock);
    hide Place;
  }

  lemma ReplayBalances(s: State, e: Event)
    requires Inv(s) && Balanced(s) && e.ReplayHead? && s.mem.dlq != []
    ensures Balanced(ReplayStep(s, e))
  {
    hide Held, Places, LeaseBijection, Known, Place;
    HeadLeaves(s.mem);
    PlaceCounts(s.mem.(dlq := s.mem.dlq[1..]), s.mem.dlq[0].(attempts := 0, visibleAt := s.clock), s.clock);
  }

  /** A sorted list of the dead letters is as long as there are dead letters. */
  lemma {:induction false} LengthIsCount(dead: seq<Msg>)
    requires DistinctIds(dead)
    ensures |dead| == |IdsOf(dead)|
  {
    if dead != [] {
      var front, last := dead[..|dead| - 1], dead[|dead| - 1];
      SplitLast(dead);
      LengthIsCount(front);
      IdsAppend(front, last);
      hide IdsOf, DistinctIds;
    }
  }

  lemma CountThree(a: set<Id>, b: set<Id>, c: set<Id>, all: set<Id>)
    requires a + b + c == all && a !! b && (a + b) !! c
    ensures |a| + |b| + |c| == |all|
  {
  }

  lemma RestoredSplits(r: Staging, dead: seq<Msg>, now: Time)
    requires r.cfg.Some?
    ensures var mem := Restored(r, dead, now);
            |mem.ready.Keys| + |mem.delayed.Keys| + |r.live.Keys * r.dlq| == |r.live.Keys|
  {
    var mem := Restored(r, dead, now);
    CountThree(mem.ready.Keys, mem.delayed.Keys, r.live.Keys * r.dlq, r.live.Keys);
  }

  lemma RestoredCounts(r: Staging, dead: seq<Msg>, now: Time)
    requires Keyed(r.live) && IsDead(r, dead) && r.cfg.Some?
    ensures var mem := Restored(r, dead, now); |mem.ready| + |mem.delayed| + |dead| == |r.live|
  {
    hide IsDead, IdsOf, DistinctIds, Keyed, Restored;
    DeadAreDistinct(r, dead);
    LengthIsCount(dead);
    RestoredSplits(r, dead, now);
  }

  lemma BalanceStep(s: State, e: Event)
    requires Inv(s) && Balanced(s) && Enabled(s, e)
    ensures Balanced(Step(s, e))
  {
    match e
    case Enqueue(_, _, _, _, _) => EnqueueBalances(s, e);
    case Expire(_, _, _) => ExpireBalances(s, e);
    case Nack(_, _, _) => NackBalances(s, e);
    case Lease(_, _, _) => LeaseBalances(s, e);
    case Promote(_, _) => PromoteBalances(s, e);
    case Ack(_, _) => AckBalances(s, e);
    case Extend(_, _) => ExtendBalances(s, e);
    case ReplayHead(_) => ReplayBalances(s, e);
    case Restart(keep, now, dead) =>
      LiveIsKeyed(s.disk.Written()[..keep]);
      RestoredCounts(Replayed(s.disk.Written()[..keep]), dead, now);
    case _ =>
  }

  /** In every state of every run: deliveries are acked, nacked, expired or still
      inflight; and messages enqueued or restored are held, acked, or were dropped
      by a failed OpNack append. */
  lemma {:induction false} CountersAddUp(cfg: Config, start: Time, run: seq<Event>)
    requires Legal(Fresh(cfg, start), run)
    ensures Balanced(Final(Fresh(cfg, start), run))
  {
    hide Inv, Step;
    if run != [] {
      CountersAddUp(cfg, start, run[..|run| - 1]);
      FreshHolds(cfg, start);
      RunKeeps(Fresh(cfg, start), run[..|run| - 1]);
      BalanceStep(Final(Fresh(cfg, start), run[..|run| - 1]), run[|run| - 1]);
    }
  }
}
