/** What each successful operation does to its message, spelled out field by field:
    where it is afterwards, what it looks like, and what record carries it
    (queue/queue.go:149-183, 284-310, 313-387, 446-516). */
module Outcomes {
  import opened Msgs
  import opened Recovery
  import opened Model
  import opened Partition

  /** Message m is delayed if it is visible only after now, and ready otherwise. */
  ghost predicate Waits(mem: Memory, m: Msg, now: Time) {
    if m.visibleAt > now then m.id in mem.delayed && mem.delayed[m.id] == m
    else m.id in mem.ready && mem.ready[m.id] == m
  }

  /** The step has appended this one record. */
  ghost predicate Logged(before: Disk, after: Disk, op: Op, name: string, id: Id, msg: Option<Msg>) {
    && |after.log| == |before.log| + 1 && after.log[..|before.log|] == before.log
    && var rec := after.log[|before.log|];
    && rec.op == op && rec.queue == name && rec.msg == msg
    && (if op == OpEnqueue then rec.msg.Some? else rec.id == id)
  }

  lemma EnqueueOutcome(s: State, e: Event)
    requires Inv(s) && Enabled(s, e) && e.Enqueue? && e.o == Ok
    ensures var t := Step(s, e);
            var m := Msg(e.id, e.body, e.priority, s.mem.seqNo + 1, s.clock + e.delay, s.clock, 0, "", 0);
            Waits(t.mem, m, s.clock) && Logged(s.disk, t.disk, OpEnqueue, s.mem.cfg.name, e.id, Some(m))
  {
    hide Places, LeaseBijection, Known;
  }

  /** A message whose lease is over, taken from inflight. */
  ghost function Back(s: State, e: Event): Msg
    requires Enabled(s, e) && (e.Nack? || e.Expire?)
  {
    s.mem.inflight[if e.Nack? then s.mem.leases[e.receipt] else e.id].(receipt := "", leaseExpiry := 0)
  }

  lemma RetryFiles(s: State, m: Msg, now: Time, delay: int)
    ensures var t := Retry(s, m, now, delay, Ok);
            if s.mem.cfg.maxAttempts > 0 && m.attempts >= s.mem.cfg.maxAttempts then
              && t.mem.dlq == s.mem.dlq + [m] && t.mem.ready == s.mem.ready && t.mem.delayed == s.mem.delayed
              && Logged(s.disk, t.disk, OpDLQ, s.mem.cfg.name, m.id, None)
            else
              var again := m.(visibleAt := now + delay);
              && t.mem.dlq == s.mem.dlq && Waits(t.mem, again, now)
              && Logged(s.disk, t.disk, OpNack, s.mem.cfg.name, m.id, Some(again))
  {
  }

  /** A nack or an expiry that is logged buries the message if and only if it has had
      all its attempts. Otherwise it is ready or delayed again. */
  lemma RetryOutcome(s: State, e: Event)
    requires Inv(s) && Enabled(s, e) && (e.Nack? || e.Expire?) && e.o == Ok
    ensures var t, m := Step(s, e), Back(s, e);
            var now, delay := if e.Nack? then s.clock else e.now, if e.Nack? then e.delay else 0;
            && m.id !in t.mem.inflight
            && if s.mem.cfg.maxAttempts > 0 && m.attempts >= s.mem.cfg.maxAttempts then
                 && t.mem.dlq == s.mem.dlq + [m] && t.mem.ready == s.mem.ready && t.mem.delayed == s.mem.delayed
                 && Logged(s.disk, t.disk, OpDLQ, s.mem.cfg.name, m.id, None)
               else
                 var again := m.(visibleAt := now + delay);
                 && t.mem.dlq == s.mem.dlq && Waits(t.mem, again, now)
                 && Logged(s.disk, t.disk, OpNack, s.mem.cfg.name, m.id, Some(again))
  {
    hide Retry, Waits, Logged, Known, Possible;
    var m := s.mem.inflight[if e.Nack? then s.mem.leases[e.receipt] else e.id];
    if e.Nack? {
      var st := s.(mem := EndLease(s.mem, m).(nacked := s.mem.nacked + 1));
      RetryFiles(st, m.Unleased(), s.clock, e.delay);
      RetryFrame(st, m.Unleased(), s.clock, e.delay, Ok);
    } else {
      var st := s.(mem := EndLease(s.mem, m).(expired := s.mem.expired + 1));
      RetryFiles(st, m.Unleased(), e.now, 0);
      RetryFrame(st, m.Unleased(), e.now, 0, Ok);
    }
  }

  /** An acknowledged message is nowhere, and its receipt is void. */
  lemma AckOutcome(s: State, e: Event)
    requires Inv(s) && Enabled(s, e) && e.Ack? && e.o == Ok
    ensures var t, id := Step(s, e), s.mem.leases[e.receipt];
            && e.receipt !in t.mem.leases && id !in Held(t.mem)
            && Logged(s.disk, t.disk, OpAck, s.mem.cfg.name, id, None)
  {
    hide Known;
  }

  /** A dead letter that is replayed is ready at once, with all its attempts. */
  lemma ReplayOutcome(s: State, e: Event)
    requires Inv(s) && Enabled(s, e) && e.ReplayHead? && e.o == Ok
    ensures var t, m := Step(s, e), s.mem.dlq[0].(attempts := 0, visibleAt := s.clock);
            && t.mem.dlq == s.mem.dlq[1..] && t.mem.ready == s.mem.ready[m.id := m] && t.mem.delayed == s.mem.delayed
            && Logged(s.disk, t.disk, OpReplay, s.mem.cfg.name, m.id, None)
  {
    hide Known, Places, LeaseBijection;
  }

  /** After a restart each message of the log is a dead letter, delayed or ready, with
      no lease, and there are no others. */
  lemma RestartOutcome(s: State, e: Event)
    requires Enabled(s, e) && e.Restart?
    ensures var mem, r := Step(s, e).mem, Replayed(s.disk.Written()[..e.keep]);
            && mem.inflight == map[] && mem.leases == map[] && mem.seqNo == r.maxSeq && r.cfg == Some(mem.cfg)
            && Held(mem) <= r.live.Keys
            && forall id :: id in r.live ==>
                 var m := r.live[id].(receipt := "", leaseExpiry := 0);
                 if id in r.dlq then m in mem.dlq
                 else if m.visibleAt > e.now then id in mem.delayed && mem.delayed[id] == m
                 else id in mem.ready && mem.ready[id] == m
  {
    hide Replayed;
  }
}
