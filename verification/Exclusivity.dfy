/** One delivery at a time: what leases exclude over whole runs. */
module Exclusivity {
  import opened Msgs
  import opened Recovery
  import opened Model
  import opened Partition

  /** The step returns the message to the queue: its lease expires or is nacked,
      or the process restarts. */
  ghost predicate Returns(s: State, e: Event, id: Id)
    requires Enabled(s, e)
  {
    e.Restart? || (e.Expire? && e.id == id) || (e.Nack? && s.mem.leases[e.receipt] == id)
  }

  /** Leased out, or gone for good. */
  ghost predicate Out(s: State, id: Id) {
    id in s.book.used && (id in s.mem.inflight || id !in Held(s.mem))
  }

  /** Retrying one message brings no other into the queue. */
  lemma RetryHolds(s: State, m: Msg, now: Time, delay: int, o: Outcome)
    ensures Held(Retry(s, m, now, delay, o).mem) <= Held(s.mem) + {m.id}
    ensures Retry(s, m, now, delay, o).mem.inflight == s.mem.inflight
  {
    hide Held;
    PlaceHolds(s.mem, m.(visibleAt := now), now);
    PlaceHolds(s.mem, m.(visibleAt := now + delay), now);
    PlaceFrame(s.mem, m.(visibleAt := now), now);
    PlaceFrame(s.mem, m.(visibleAt := now + delay), now);
    DeadHolds(s.mem, m);
    hide Place;
  }

  lemma DeadHolds(mem: Memory, m: Msg)
    ensures Held(mem.(dlq := mem.dlq + [m])) <= Held(mem) + {m.id}
  {
  }

  lemma EndingStaysOut(s: State, e: Event, id: Id)
    requires Inv(s) && Out(s, id) && Enabled(s, e) && !Returns(s, e, id) && (e.Nack? || e.Expire?)
    ensures Out(Step(s, e), id)
  {
    hide Retry, Held, LeaseBijection, EnqueuesOnly, IdsOf;
    var of := if e.Nack? then s.mem.leases[e.receipt] else e.id;
    var m := s.mem.inflight[of];
    var t := s.(mem := if e.Nack? then EndLease(s.mem, m).(nacked := s.mem.nacked + 1)
                       else EndLease(s.mem, m).(expired := s.mem.expired + 1));
    EndedKeeps(s, of, t.mem);
    EndedHolds(s, of, t.mem);
    if e.Nack? {
      RetryHolds(t, m.Unleased(), s.clock, e.delay, e.o);
      RetryFrame(t, m.Unleased(), s.clock, e.delay, e.o);
    } else {
      RetryHolds(t, m.Unleased(), e.now, 0, e.o);
      RetryFrame(t, m.Unleased(), e.now, 0, e.o);
    }
  }

  lemma EndedHolds(s: State, id: Id, mem: Memory)
    requires Inv(s) && id in s.mem.inflight
    requires mem == EndLease(s.mem, s.mem.inflight[id]).(nacked := mem.nacked, expired := mem.expired)
    ensures Held(mem) == Held(s.mem) - {id} && mem.inflight == s.mem.inflight - {id}
  {
    EndLeaseKeeps(s.mem, s.mem.inflight[id]);
    assert Held(mem) == Held(EndLease(s.mem, s.mem.inflight[id]));
  }

  lemma StaysOut(s: State, e: Event, id: Id)
    requires Inv(s) && Out(s, id) && Enabled(s, e) && !Returns(s, e, id)
    ensures Out(Step(s, e), id)
  {
    match e
    case Nack(_, _, _) => EndingStaysOut(s, e, id);
    case Expire(_, _, _) => EndingStaysOut(s, e, id);
    case Enqueue(_, _, _, _, _) => EnqueueStaysOut(s, e, id);
    case ReplayHead(_) => ReplayStaysOut(s, e, id);
    case _ => MoveStaysOut(s, e, id);
  }

  lemma EnqueueStaysOut(s: State, e: Event, id: Id)
    requires Out(s, id) && e.Enqueue? && e.id !in s.book.used
    ensures Out(EnqueueStep(s, e), id)
  {
    hide IdsOf;
    var mem := s.mem.(seqNo := NewMsg(s, e).seqNo);
    PlaceHolds(mem, NewMsg(s, e), s.clock);
  }

  lemma ReplayStaysOut(s: State, e: Event, id: Id)
    requires Places(s.mem) && LeaseBijection(s.mem) && Out(s, id) && e.ReplayHead? && s.mem.dlq != []
    ensures Out(ReplayStep(s, e), id)
  {
    hide Held, Place;
    var m, rest := s.mem.dlq[0], s.mem.(dlq := s.mem.dlq[1..]);
    HeadLeaves(s.mem);
    PlaceHolds(rest, m.(attempts := 0, visibleAt := s.clock), s.clock);
    PlaceFrame(rest, m.(attempts := 0, visibleAt := s.clock), s.clock);
  }

  lemma MoveStaysOut(s: State, e: Event, id: Id)
    requires Inv(s) && Out(s, id) && Enabled(s, e)
    requires !e.Nack? && !e.Expire? && !e.Enqueue? && !e.ReplayHead? && !e.Restart?
    ensures Out(Step(s, e), id)
  {
    hide IdsOf, DistinctIds, EnqueuesOnly;
  }

  /** Message id is leased at position i and does not return after it. */
  ghost predicate LeasedSince(init: State, run: seq<Event>, i: nat, id: Id)
    requires Legal(init, run)
  {
    && i < |run| && run[i].Lease? && run[i].id == id
    && forall k :: i < k < |run| ==>
         LegalTo(init, run, k) && !Returns(Final(init, run[..k]), run[k], id)
  }

  /** Position k of a legal run is reached by a legal run, and its step is enabled there. */
  ghost predicate LegalTo(init: State, run: seq<Event>, k: nat)
    requires k < |run|
  {
    Legal(init, run[..k]) && Enabled(Final(init, run[..k]), run[k])
  }

  lemma {:induction false} PrefixLegal(init: State, run: seq<Event>, k: nat)
    requires Legal(init, run) && k < |run|
    ensures LegalTo(init, run, k)
  {
    var front := run[..|run| - 1];
    if k < |front| {
      PrefixLegal(init, front, k);
      assert front[..k] == run[..k];
    }
  }

  lemma {:induction false} OutSince(init: State, run: seq<Event>, i: nat, id: Id)
    requires Inv(init) && Legal(init, run) && LeasedSince(init, run, i, id)
    ensures Out(Final(init, run), id)
  {
    var front, e := run[..|run| - 1], run[|run| - 1];
    RunKeeps(init, front);
    if i == |front| {
      LeasedIsOut(Final(init, front), e);
    } else {
      hide Returns, Out, Inv, Step, Enabled;
      forall k | i < k < |front|
        ensures LegalTo(init, front, k) && !Returns(Final(init, front[..k]), front[k], id)
      {
        assert front[..k] == run[..k];
        assert LegalTo(init, run, k);
      }
      OutSince(init, front, i, id);
      assert LegalTo(init, run, |front|);
      StaysOut(Final(init, front), e, id);
    }
  }

  lemma LeasedIsOut(s: State, e: Event)
    requires Inv(s) && Enabled(s, e) && e.Lease?
    ensures Out(Step(s, e), e.id)
  {
    hide IdsOf, EnqueuesOnly;
  }

  /** Between two deliveries of one message there is an expiry or a nack of it, or
      a restart. */
  lemma DeliveredTwiceReturnedBetween(cfg: Config, start: Time, run: seq<Event>, i: nat, j: nat)
    requires Legal(Fresh(cfg, start), run) && i < j < |run|
    requires run[i].Lease? && run[j].Lease? && run[i].id == run[j].id
    ensures exists k :: i < k < j && LegalTo(Fresh(cfg, start), run, k) &&
                        Returns(Final(Fresh(cfg, start), run[..k]), run[k], run[i].id)
  {
    hide Inv, Step, Returns, Out;
    var init, id := Fresh(cfg, start), run[i].id;
    FreshHolds(cfg, start);
    PrefixLegal(init, run, j);
    var to := run[..j];
    RunKeeps(init, to);
    if forall k :: i < k < j && LegalTo(init, run, k) ==> !Returns(Final(init, run[..k]), run[k], id) {
      forall k | i < k < |to|
        ensures LegalTo(init, to, k) && !Returns(Final(init, to[..k]), to[k], id)
      {
        PrefixLegal(init, run, k);
        assert to[..k] == run[..k];
      }
      OutSince(init, to, i, id);
      InReadyIsNotOut(Final(init, to), id);
      assert false;
    }
  }

  lemma InReadyIsNotOut(s: State, id: Id)
    requires Inv(s) && id in s.mem.ready
    ensures !Out(s, id)
  {
  }

  // ---------- stale receipts ----------

  /** The receipt was handed out and its lease is over. */
  ghost predicate Stale(s: State, receipt: Id) {
    receipt in s.book.used && receipt !in s.mem.leases
  }

  lemma StaleStep(s: State, e: Event, receipt: Id)
    requires Stale(s, receipt) && Enabled(s, e)
    ensures Stale(Step(s, e), receipt)
  {
    hide Retry;
    match e
    case Nack(r, delay, o) =>
      var m := s.mem.inflight[s.mem.leases[r]];
      RetryFrame(s.(mem := EndLease(s.mem, m).(nacked := s.mem.nacked + 1)), m.Unleased(), s.clock, delay, o);
    case Expire(id, now, o) =>
      var m := s.mem.inflight[id];
      RetryFrame(s.(mem := EndLease(s.mem, m).(expired := s.mem.expired + 1)), m.Unleased(), now, 0, o);
    case _ =>
  }

  /** Once a receipt has left the lease table it stays out, however often its
      message is delivered again; no later Ack, Nack or Extend with it is possible. */
  lemma {:induction false} StaleForever(init: State, run: seq<Event>, receipt: Id)
    requires Legal(init, run) && Stale(init, receipt)
    ensures Stale(Final(init, run), receipt) && !Leases(Final(init, run).mem, receipt)
  {
    if run != [] {
      hide Step, Enabled;
      StaleForever(init, run[..|run| - 1], receipt);
      StaleStep(Final(init, run[..|run| - 1]), run[|run| - 1], receipt);
    }
  }

  /** Ending a lease makes its receipt stale. */
  lemma EndedIsStale(s: State, e: Event, receipt: Id)
    requires Inv(s) && Enabled(s, e) && Leases(s.mem, receipt)
    requires Returns(s, e, s.mem.leases[receipt]) || (e.Ack? && e.receipt == receipt && e.o == Ok)
    ensures Stale(Step(s, e), receipt)
  {
    hide Retry, IdsOf, EnqueuesOnly, Places, Replayed, IsDead;
    match e
    case Nack(r, delay, o) =>
      var m := s.mem.inflight[s.mem.leases[r]];
      RetryFrame(s.(mem := EndLease(s.mem, m).(nacked := s.mem.nacked + 1)), m.Unleased(), s.clock, delay, o);
    case Expire(id, now, o) =>
      var m := s.mem.inflight[id];
      RetryFrame(s.(mem := EndLease(s.mem, m).(expired := s.mem.expired + 1)), m.Unleased(), now, 0, o);
    case _ =>
  }
}
