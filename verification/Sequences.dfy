/** Sequence numbers are never reused, whatever fails, restarts or is compacted:
    the ready order is total because of it. */
module Sequences {
  import opened Msgs
  import opened Recovery
  import opened Model
  import opened Partition
  import opened Restarts

  ghost predicate Enqueues(rec: Record) {
    rec.op == OpEnqueue && rec.msg.Some?
  }

  /** No record of the log numbers a message, or stamps a counter, above n. */
  ghost predicate UpTo(log: seq<Record>, n: nat) {
    && (forall rec :: rec in log && Enqueues(rec) ==> rec.msg.value.seqNo <= n)
    && (forall rec :: rec in log && rec.op == OpCreateQueue ==> rec.seqNo <= n)
  }

  /** Two enqueue records with one number are about one message. */
  ghost predicate NumbersOnce(log: seq<Record>) {
    forall a, b :: a in log && b in log && Enqueues(a) && Enqueues(b) && a.msg.value.seqNo == b.msg.value.seqNo
      ==> a.msg.value.id == b.msg.value.id
  }

  ghost predicate Configured(log: seq<Record>) {
    forall rec :: rec in log && rec.op == OpCreateQueue ==> rec.config.Some?
  }

  ghost predicate Numbered(s: State) {
    UpTo(s.disk.Written(), s.mem.seqNo) && NumbersOnce(s.disk.Written()) && Configured(s.disk.Written())
  }

  ghost predicate DistinctSeq(live: map<Id, Msg>) {
    forall a, b :: a in live && b in live && live[a].seqNo == live[b].seqNo ==> a == b
  }

  /** A live message was numbered by an enqueue record of the log. */
  ghost predicate NumberedBy(log: seq<Record>, id: Id, n: nat) {
    exists rec :: rec in log && Enqueues(rec) && rec.msg.value.id == id && rec.msg.value.seqNo == n
  }

  lemma NumberedMore(log: seq<Record>, rec: Record, id: Id, n: nat)
    requires NumberedBy(log, id, n)
    ensures NumberedBy(log + [rec], id, n)
  {
    var r :| r in log && Enqueues(r) && r.msg.value.id == id && r.msg.value.seqNo == n;
    assert r in log + [rec];
  }

  lemma {:induction false} LiveIsNumbered(log: seq<Record>, id: Id)
    requires id in Replayed(log).live
    ensures NumberedBy(log, id, Replayed(log).live[id].seqNo)
  {
    var front, rec := log[..|log| - 1], log[|log| - 1];
    assert log == front + [rec];
    if Enqueues(rec) && rec.msg.value.id == id {
      assert rec in log;
    } else {
      LiveIsNumbered(front, id);
      NumberedMore(front, rec, id, Replayed(front).live[id].seqNo);
    }
  }

  /** No two messages read from the log share a number. */
  lemma LiveDistinct(log: seq<Record>)
    requires NumbersOnce(log)
    ensures DistinctSeq(Replayed(log).live)
  {
    var live := Replayed(log).live;
    forall a, b | a in live && b in live && live[a].seqNo == live[b].seqNo
      ensures a == b
    {
      LiveIsNumbered(log, a);
      LiveIsNumbered(log, b);
    }
  }

  /** The counter a restart resumes from covers the whole surviving log. */
  lemma {:induction false} MaxCovers(log: seq<Record>)
    requires Configured(log)
    ensures UpTo(log, Replayed(log).maxSeq)
  {
    if log != [] {
      var front, rec := log[..|log| - 1], log[|log| - 1];
      MaxCovers(front);
      assert forall r :: r in log <==> r in front || r == rec;
    }
  }

  // ---------- every step keeps the numbering ----------

  /** Memory numbers its messages as the log does. */
  lemma HeldDistinct(s: State)
    requires Full(s) && Numbered(s)
    ensures DistinctSeq(s.mem.ready)
    ensures forall id :: id in s.mem.ready ==>
      id in Replayed(s.disk.log).live && s.mem.ready[id].seqNo == Replayed(s.disk.log).live[id].seqNo
  {
    assert forall rec :: rec in s.disk.log ==> rec in s.disk.Written();
    LiveDistinct(s.disk.log);
    hide Durably, Numbered, NumbersOnce, UpTo;
  }

  /** Most steps write no record that numbers anything. */
  lemma WrittenGrows(s: State, e: Event)
    requires Enabled(s, e) && Tidy(s.disk) && !e.Enqueue? && !e.Compact? && !e.Restart?
    ensures forall rec :: rec in Step(s, e).disk.Written() && (Enqueues(rec) || rec.op == OpCreateQueue)
              ==> rec in s.disk.Written()
  {
    hide Leases, EndLease, Place;
  }

  lemma CounterStays(s: State, e: Event)
    requires Enabled(s, e) && !e.Enqueue? && !e.Restart?
    ensures Step(s, e).mem.seqNo == s.mem.seqNo
  {
    hide Retry;
    if e.Nack? {
      var m := s.mem.inflight[s.mem.leases[e.receipt]];
      RetryFrame(s.(mem := EndLease(s.mem, m).(nacked := s.mem.nacked + 1)), m.Unleased(), s.clock, e.delay, e.o);
    } else if e.Expire? {
      var m := s.mem.inflight[e.id];
      RetryFrame(s.(mem := EndLease(s.mem, m).(expired := s.mem.expired + 1)), m.Unleased(), e.now, 0, e.o);
    }
  }

  lemma SameNumbered(s: State, t: State)
    requires Numbered(s) && t.mem.seqNo == s.mem.seqNo
    requires forall rec :: rec in t.disk.Written() && (Enqueues(rec) || rec.op == OpCreateQueue)
               ==> rec in s.disk.Written()
    ensures Numbered(t)
  {
  }

  lemma EnqueueNumbered(s: State, e: Event)
    requires Numbered(s) && e.Enqueue? && Possible(s.disk, e.o) && Tidy(s.disk)
    ensures Numbered(EnqueueStep(s, e))
  {
    var t, added := EnqueueStep(s, e), EnqueueRecord(s.mem.cfg.name, NewMsg(s, e));
    assert t.mem.seqNo == s.mem.seqNo + 1;
    assert forall rec :: rec in t.disk.Written() ==> rec in s.disk.Written() || rec == added;
    assert added.msg.value.seqNo == s.mem.seqNo + 1;
  }

  lemma PrefixNumbered(s: State, keep: nat)
    requires Numbered(s) && keep <= |s.disk.Written()|
    ensures NumbersOnce(s.disk.Written()[..keep]) && Configured(s.disk.Written()[..keep])
  {
    assert forall rec :: rec in s.disk.Written()[..keep] ==> rec in s.disk.Written();
  }

  lemma RestartNumbered(s: State, e: Event)
    requires Numbered(s) && e.Restart? && Enabled(s, e)
    ensures Numbered(RestartStep(s, e))
  {
    hide NumbersOnce, Configured, UpTo, IsDead;
    var log := s.disk.Written()[..e.keep];
    PrefixNumbered(s, e.keep);
    MaxCovers(log);
    assert log + [] == log;
  }

  lemma {:induction false} EmitMembers(name: string, order: seq<Msg>, rec: Record)
    requires rec in Emit(name, order) || rec in EmitDead(name, order)
    ensures rec.op != OpCreateQueue
    ensures Enqueues(rec) ==> exists m :: m in order && m.Unleased() == rec.msg.value
  {
    var front, last := order[..|order| - 1], order[|order| - 1];
    assert last in order && forall m :: m in front ==> m in order;
    if rec in Emit(name, front) || rec in EmitDead(name, front) {
      EmitMembers(name, front, rec);
    }
  }

  /** A message a printout contains is numbered as the log numbers it. */
  lemma PrintedNumber(s: State, m: Msg, order: seq<Msg>)
    requires Full(s) && Lists(order, s.mem.ready, s.mem.delayed, s.mem.inflight)
    requires m in order || m in s.mem.dlq
    ensures var live := Replayed(s.disk.log).live;
            m.id in live && live[m.id].seqNo == m.seqNo && m.seqNo <= s.mem.seqNo
  {
    LiveBelowMax(s.disk.log);
    hide Durably, LeaseBijection, Known;
  }

  /** Every record of a printout is its create record or comes from a message held. */
  lemma PrintoutMembers(s: State, order: seq<Msg>, rec: Record)
    requires Full(s) && Lists(order, s.mem.ready, s.mem.delayed, s.mem.inflight)
    requires rec in LiveRecords(s.mem.cfg, s.mem.seqNo, order, s.mem.dlq)
    ensures rec == CreateRecord(s.mem.cfg, s.mem.seqNo) || rec.op != OpCreateQueue
    ensures Enqueues(rec) ==>
              var live, m := Replayed(s.disk.log).live, rec.msg.value;
              m.id in live && live[m.id].seqNo == m.seqNo && m.seqNo <= s.mem.seqNo
  {
    hide Full, Lists;
    if rec in Emit(s.mem.cfg.name, order) {
      EmitMembers(s.mem.cfg.name, order, rec);
      if Enqueues(rec) {
        var m :| m in order && m.Unleased() == rec.msg.value;
        PrintedNumber(s, m, order);
      }
    } else if rec in EmitDead(s.mem.cfg.name, s.mem.dlq) {
      EmitMembers(s.mem.cfg.name, s.mem.dlq, rec);
      if Enqueues(rec) {
        var m :| m in s.mem.dlq && m.Unleased() == rec.msg.value;
        PrintedNumber(s, m, order);
      }
    }
  }

  lemma CompactNumbered(s: State, e: Event)
    requires Full(s) && Numbered(s) && e.Compact? && Enabled(s, e)
    ensures Numbered(CompactStep(s, e))
  {
    var log := LiveRecords(s.mem.cfg, s.mem.seqNo, e.order, s.mem.dlq);
    assert CompactStep(s, e).disk.Written() == log;
    forall rec | rec in log
      ensures rec == CreateRecord(s.mem.cfg, s.mem.seqNo) || rec.op != OpCreateQueue
      ensures Enqueues(rec) ==>
                var live, m := Replayed(s.disk.log).live, rec.msg.value;
                m.id in live && live[m.id].seqNo == m.seqNo && m.seqNo <= s.mem.seqNo
    {
      PrintoutMembers(s, e.order, rec);
    }
    assert forall rec :: rec in s.disk.log ==> rec in s.disk.Written();
    LiveDistinct(s.disk.log);
    hide Full, Lists, LiveRecords, Replayed;
  }

  lemma NumberedStep(s: State, e: Event)
    requires Full(s) && Numbered(s) && Enabled(s, e)
    ensures Numbered(Step(s, e))
  {
    hide Full, Numbered;
    FullParts(s);
    match e
    case Enqueue(_, _, _, _, _) => EnqueueNumbered(s, e);
    case Compact(_) => CompactNumbered(s, e);
    case Restart(_, _, _) => RestartNumbered(s, e);
    case _ =>
      WrittenGrows(s, e);
      CounterStays(s, e);
      SameNumbered(s, Step(s, e));
  }

  lemma {:induction false} NumberedRun(init: State, run: seq<Event>)
    requires Full(init) && Numbered(init) && Legal(init, run)
    ensures Numbered(Final(init, run))
  {
    hide Full, Numbered, Step;
    if run != [] {
      NumberedRun(init, run[..|run| - 1]);
      FullRun(init, run[..|run| - 1]);
      NumberedStep(Final(init, run[..|run| - 1]), run[|run| - 1]);
    }
  }

  lemma FreshNumbered(cfg: Config, clock: Time)
    ensures Numbered(Fresh(cfg, clock))
  {
  }

  // ---------- theorems ----------

  /** In every run, the next Enqueue takes a number above every number and every
      stamped counter in the file, acknowledged or not; and no crash can leave a
      log in which two messages share a number. */
  lemma SequenceNumbersAreFresh(cfg: Config, start: Time, run: seq<Event>, e: Event, keep: nat)
    requires cfg.Normalized() == cfg && Legal(Fresh(cfg, start), run)
    requires e.Enqueue? && Enabled(Final(Fresh(cfg, start), run), e)
    requires keep <= |Final(Fresh(cfg, start), run).disk.Written()|
    ensures var s := Final(Fresh(cfg, start), run);
            && UpTo(s.disk.Written(), NewMsg(s, e).seqNo - 1)
            && DistinctSeq(Replayed(s.disk.Written()[..keep]).live)
            && DistinctSeq(s.mem.ready)
  {
    FreshFull(cfg, start);
    FreshNumbered(cfg, start);
    NumberedRun(Fresh(cfg, start), run);
    FullRun(Fresh(cfg, start), run);
    var s := Final(Fresh(cfg, start), run);
    PrefixNumbered(s, keep);
    LiveDistinct(s.disk.Written()[..keep]);
    HeldDistinct(s);
  }

  // ---------- a restart is always possible ----------

  /** dead lists the messages of ids in sequence order, leases wiped. */
  ghost predicate Sorts(live: map<Id, Msg>, ids: set<Id>, dead: seq<Msg>)
    requires ids <= live.Keys
  {
    && (forall i, j :: 0 <= i < j < |dead| ==> dead[i].seqNo < dead[j].seqNo)
    && (forall m :: m in dead ==> m.id in ids && m == live[m.id].Unleased())
    && (forall id :: id in ids ==> live[id].Unleased() in dead)
  }

  lemma Newest(live: map<Id, Msg>, ids: set<Id>) returns (top: Id)
    requires ids <= live.Keys && ids != {}
    ensures top in ids && forall id :: id in ids ==> live[id].seqNo <= live[top].seqNo
    decreases |ids|
  {
    top :| top in ids;
    if ids != {top} {
      assert ids - {top} != {};
      var other := Newest(live, ids - {top});
      if live[other].seqNo > live[top].seqNo {
        top := other;
      }
    }
  }

  lemma SortIds(live: map<Id, Msg>, ids: set<Id>) returns (dead: seq<Msg>)
    requires ids <= live.Keys && DistinctSeq(live) && Keyed(live)
    ensures Sorts(live, ids, dead)
    decreases |ids|
  {
    if ids == {} {
      dead := [];
    } else {
      var top := Newest(live, ids);
      var front := SortIds(live, ids - {top});
      dead := front + [live[top].Unleased()];
      forall m | m in front
        ensures m.seqNo < live[top].seqNo
      {
        assert m.id in ids - {top} && live[m.id].seqNo != live[top].seqNo;
      }
    }
  }

  lemma ListDead(log: seq<Record>) returns (dead: seq<Msg>)
    requires NumbersOnce(log)
    ensures IsDead(Replayed(log), dead)
  {
    LiveDistinct(log);
    LiveIsKeyed(log);
    dead := SortIds(Replayed(log).live, Replayed(log).live.Keys * Replayed(log).dlq);
  }

  /** Whatever prefix a crash leaves, the log is accepted and a restart happens. */
  lemma RestartIsPossible(cfg: Config, start: Time, run: seq<Event>, keep: nat, now: Time) returns (dead: seq<Msg>)
    requires cfg.Normalized() == cfg && Legal(Fresh(cfg, start), run)
    requires var s := Final(Fresh(cfg, start), run); s.clock <= now && s.disk.synced <= keep <= |s.disk.Written()|
    ensures Enabled(Final(Fresh(cfg, start), run), Restart(keep, now, dead))
  {
    hide Full, Numbered, IsDead, Final, Legal, NumbersOnce, Sound;
    FreshFull(cfg, start);
    FreshNumbered(cfg, start);
    NumberedRun(Fresh(cfg, start), run);
    FullRun(Fresh(cfg, start), run);
    var s := Final(Fresh(cfg, start), run);
    PrefixSound(s, keep);
    PrefixNumbered(s, keep);
    dead := ListDead(s.disk.Written()[..keep]);
  }
}
