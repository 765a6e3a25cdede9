/** Every message is the one that was enqueued: what its producer gave it stays with
    it through the log, restarts and compactions (queue/queue.go:149-183,
    queue/manager.go:111-118, 418-442). */
module Origins {
  import opened Msgs
  import opened Recovery
  import opened Model
  import opened Partition
  import opened Agreement
  import opened Restarts
  import opened Sequences
  import opened Visibility
  import opened Burials

  /** The message that an Enqueue of this ID has written, read off the run. */
  ghost function Sent(init: State, run: seq<Event>, id: Id): Option<Msg>
    requires Legal(init, run)
  {
    if run == [] then None else
      var front, e := run[..|run| - 1], run[|run| - 1];
      NextSent(Final(init, front), e, id, Sent(init, front, id))
  }

  ghost function NextSent(s: State, e: Event, id: Id, sent: Option<Msg>): Option<Msg> {
    if e.Enqueue? && e.id == id && e.o != NotWritten
    then Some(Msg(id, e.body, e.priority, s.mem.seqNo + 1, s.clock + e.delay, s.clock, 0, "", 0))
    else sent
  }

  /** The message has been nacked, has expired, or has been replayed. */
  ghost predicate Touched(init: State, run: seq<Event>, id: Id)
    requires Legal(init, run)
  {
    run != [] &&
    (Touched(init, run[..|run| - 1], id) || Touches(Final(init, run[..|run| - 1]), run[|run| - 1], id))
  }

  ghost predicate Touches(s: State, e: Event, id: Id)
    requires Enabled(s, e)
  {
    match e
    case Nack(_, _, _) => EndedId(s, e) == id
    case Expire(_, _, _) => EndedId(s, e) == id
    case ReplayHead(_) => s.mem.dlq[0].id == id
    case _ => false
  }

  /** What a producer gives a message and the queue adds on arrival. */
  ghost predicate Same(a: Msg, b: Msg) {
    a.id == b.id && a.body == b.body && a.priority == b.priority && a.seqNo == b.seqNo && a.enqueuedAt == b.enqueuedAt
  }

  /** m is the message sent, and visible as asked for unless it has been touched. */
  ghost predicate From(m: Msg, sent: Option<Msg>, touched: bool) {
    sent.Some? && Same(m, sent.value) && (!touched ==> m.visibleAt == sent.value.visibleAt)
  }

  /** Every record that carries message id carries the one sent. */
  ghost predicate Carried(log: seq<Record>, id: Id, sent: Option<Msg>, touched: bool) {
    && (forall rec :: rec in log && Enqueues(rec) && rec.msg.value.id == id ==> From(rec.msg.value, sent, touched))
    && (forall rec :: rec in log && rec.op == OpNack && rec.msg.Some? && rec.msg.value.id == id ==> touched)
  }

  lemma {:induction false} LiveFrom(log: seq<Record>, id: Id, sent: Option<Msg>, touched: bool)
    requires Carried(log, id, sent, touched) && id in Replayed(log).live
    ensures From(Replayed(log).live[id], sent, touched)
  {
    var front, rec := log[..|log| - 1], log[|log| - 1];
    assert rec in log && forall r :: r in front ==> r in log;
    if id in Replayed(front).live {
      LiveFrom(front, id, sent, touched);
    }
  }

  // ---------- steps ----------

  /** New nack records come from nacks and expiries. */
  lemma NackRecords(s: State, e: Event, rec: Record)
    requires Full(s) && Enabled(s, e) && !e.Compact? && !e.Restart?
    requires rec in Step(s, e).disk.Written() && rec !in s.disk.Written() && rec.op == OpNack && rec.msg.Some?
    ensures Touches(s, e, rec.msg.value.id)
  {
    hide Full, NewMsg;
    FullParts(s);
    if e.Enqueue? || e.Ack? || e.Nack? || e.Expire? || e.ReplayHead? {
      AppendsIt(s, e);
      if e.Nack? || e.Expire? {
        InflightMayEnd(s, EndedId(s, e));
      }
      hide Step;
    } else {
      hide Replayed, IsDead, Lists;
    }
  }

  lemma EnqueueCarries(s: State, e: Event, id: Id, sent: Option<Msg>, touched: bool)
    requires Full(s) && Enabled(s, e) && e.Enqueue? && Carried(s.disk.Written(), id, sent, touched)
    ensures Carried(Step(s, e).disk.Written(), id, NextSent(s, e, id, sent), touched)
  {
    hide LogAgrees, Durably, Places, LeaseBijection;
    AppendsIt(s, e);
    hide Step;
    var rec := EnqueueRecord(s.mem.cfg.name, NewMsg(s, e));
    assert forall r :: r in Step(s, e).disk.Written() ==> r in s.disk.Written() || (r == rec && e.o != NotWritten);
    assert e.o != NotWritten ==> s.disk.extra == [];
    assert forall r :: r in s.disk.log ==> r in s.disk.Written();
  }

  lemma LocalCarries(s: State, e: Event, id: Id, sent: Option<Msg>, touched: bool)
    requires Full(s) && Enabled(s, e) && !e.Enqueue? && !e.Compact? && !e.Restart?
    requires Carried(s.disk.Written(), id, sent, touched)
    ensures Carried(Step(s, e).disk.Written(), id, sent, touched || Touches(s, e, id))
  {
    hide Full, Step, Enabled, Touches;
    FullParts(s);
    WrittenGrows(s, e);
    forall rec | rec in Step(s, e).disk.Written() && rec.op == OpNack && rec.msg.Some? && rec.msg.value.id == id
      ensures touched || Touches(s, e, id)
    {
      if rec !in s.disk.Written() {
        NackRecords(s, e, rec);
      }
    }
  }

  /** A message in memory is the one in the log. */
  lemma MemoryFrom(s: State, id: Id, m: Msg, sent: Option<Msg>, touched: bool, v: Option<Time>)
    requires Full(s) && Carried(s.disk.Written(), id, sent, touched) && Shows(s, id, v) && (!touched ==> v == None)
    requires || (id in s.mem.ready && m == s.mem.ready[id]) || (id in s.mem.delayed && m == s.mem.delayed[id])
             || (id in s.mem.inflight && m == s.mem.inflight[id]) || (m in s.mem.dlq && m.id == id)
    ensures From(m, sent, touched)
  {
    hide Inv, Durably, Replayed, Header;
    HeldOne(s, id, m);
    assert forall rec :: rec in s.disk.log ==> rec in s.disk.Written();
    LiveFrom(s.disk.log, id, sent, touched);
  }

  lemma HeldOne(s: State, id: Id, m: Msg)
    requires || (id in s.mem.ready && m == s.mem.ready[id]) || (id in s.mem.delayed && m == s.mem.delayed[id])
             || (id in s.mem.inflight && m == s.mem.inflight[id]) || (m in s.mem.dlq && m.id == id)
    ensures id in Held(s.mem)
    ensures forall t :: Times(s.mem, id, t) ==> m.visibleAt == t
  {
  }

  lemma CompactCarries(s: State, e: Event, id: Id, sent: Option<Msg>, touched: bool, v: Option<Time>)
    requires Full(s) && Enabled(s, e) && e.Compact?
    requires Carried(s.disk.Written(), id, sent, touched) && Shows(s, id, v) && (!touched ==> v == None)
    ensures Carried(Step(s, e).disk.Written(), id, sent, touched)
  {
    var log := LiveRecords(s.mem.cfg, s.mem.seqNo, e.order, s.mem.dlq);
    assert Step(s, e).disk.Written() == log;
    forall rec | rec in log
      ensures rec.op != OpNack
      ensures Enqueues(rec) && rec.msg.value.id == id ==> From(rec.msg.value, sent, touched)
    {
      PrintedFrom(s, e.order, rec, id, sent, touched, v);
    }
    hide Full, Lists, LiveRecords;
  }

  lemma {:induction false} EmitHolds(name: string, order: seq<Msg>, rec: Record)
    requires rec in Emit(name, order) || rec in EmitDead(name, order)
    ensures rec.op != OpNack
  {
    var front := order[..|order| - 1];
    if rec in Emit(name, front) || rec in EmitDead(name, front) {
      EmitHolds(name, front, rec);
    }
  }

  lemma PrintedFrom(s: State, order: seq<Msg>, rec: Record, id: Id, sent: Option<Msg>, touched: bool, v: Option<Time>)
    requires Full(s) && Lists(order, s.mem.ready, s.mem.delayed, s.mem.inflight)
    requires Carried(s.disk.Written(), id, sent, touched) && Shows(s, id, v) && (!touched ==> v == None)
    requires rec in LiveRecords(s.mem.cfg, s.mem.seqNo, order, s.mem.dlq)
    ensures rec.op != OpNack
    ensures Enqueues(rec) && rec.msg.value.id == id ==> From(rec.msg.value, sent, touched)
  {
    hide Full, Shows, Carried, From;
    if rec in Emit(s.mem.cfg.name, order) {
      EmitHolds(s.mem.cfg.name, order, rec);
      EmitMembers(s.mem.cfg.name, order, rec);
      if Enqueues(rec) && rec.msg.value.id == id {
        var m :| m in order && m.Unleased() == rec.msg.value;
        MemoryFrom(s, id, m, sent, touched, v);
        WipedFrom(m, sent, touched);
      }
    } else if rec in EmitDead(s.mem.cfg.name, s.mem.dlq) {
      EmitHolds(s.mem.cfg.name, s.mem.dlq, rec);
      EmitMembers(s.mem.cfg.name, s.mem.dlq, rec);
      if Enqueues(rec) && rec.msg.value.id == id {
        var m :| m in s.mem.dlq && m.Unleased() == rec.msg.value;
        MemoryFrom(s, id, m, sent, touched, v);
        WipedFrom(m, sent, touched);
      }
    }
  }

  lemma WipedFrom(m: Msg, sent: Option<Msg>, touched: bool)
    requires From(m, sent, touched)
    ensures From(m.Unleased(), sent, touched)
  {
  }

  lemma StepCarries(s: State, e: Event, id: Id, sent: Option<Msg>, touched: bool, v: Option<Time>)
    requires Full(s) && Enabled(s, e)
    requires Carried(s.disk.Written(), id, sent, touched) && Shows(s, id, v) && (!touched ==> v == None)
    ensures Carried(Step(s, e).disk.Written(), id, NextSent(s, e, id, sent), touched || Touches(s, e, id))
  {
    hide Full, Shows;
    match e
    case Enqueue(_, _, _, _, _) => EnqueueCarries(s, e, id, sent, touched);
    case Compact(_) => CompactCarries(s, e, id, sent, touched, v);
    case Restart(keep, _, _) =>
      assert forall rec :: rec in s.disk.Written()[..keep] ==> rec in s.disk.Written();
    case _ => LocalCarries(s, e, id, sent, touched);
  }

  /** What has not been touched has no unlogged time. */
  lemma {:induction false} UntouchedIsUnmoved(init: State, run: seq<Event>, id: Id)
    requires Legal(init, run)
    ensures !Touched(init, run, id) ==> Moved(init, run, id) == None
  {
    if run != [] {
      UntouchedIsUnmoved(init, run[..|run| - 1], id);
      hide Enabled, Step;
    }
  }

  lemma {:induction false} RunCarries(init: State, run: seq<Event>, id: Id)
    requires Full(init) && Held(init.mem) == {} && Legal(init, run)
    requires forall rec :: rec in init.disk.Written() ==> rec.op == OpCreateQueue
    ensures Carried(Final(init, run).disk.Written(), id, Sent(init, run, id), Touched(init, run, id))
  {
    if run != [] {
      hide Full, Step, Enabled, Shows, Held, Carried, Touches, NextMoved, NextSent;
      var front := run[..|run| - 1];
      RunCarries(init, front, id);
      FullRun(init, front);
      RunShows(init, front, id);
      UntouchedIsUnmoved(init, front, id);
      StepCarries(Final(init, front), run[|run| - 1], id, Sent(init, front, id), Touched(init, front, id),
                  Moved(init, front, id));
    }
  }

  // ---------- theorem ----------

  /** In every run, a message that memory holds, or that any crash leaves in the log,
      is the one its Enqueue wrote: the same body, priority, sequence number and time
      of arrival. Until it is nacked, expires or is replayed, it is also visible
      exactly from its arrival plus the delay that was asked for. */
  lemma MessagesAreTheOnesSent(cfg: Config, start: Time, run: seq<Event>, keep: nat, id: Id, m: Msg)
    requires cfg.Normalized() == cfg && Legal(Fresh(cfg, start), run)
    requires keep <= |Final(Fresh(cfg, start), run).disk.Written()|
    requires var s := Final(Fresh(cfg, start), run);
             var live := Replayed(s.disk.Written()[..keep]).live;
             || (id in s.mem.ready && m == s.mem.ready[id]) || (id in s.mem.delayed && m == s.mem.delayed[id])
             || (id in s.mem.inflight && m == s.mem.inflight[id]) || (m in s.mem.dlq && m.id == id)
             || (id in live && m == live[id])
    ensures var init := Fresh(cfg, start);
            var sent := Sent(init, run, id);
            && sent.Some? && m.id == id && m.body == sent.value.body && m.priority == sent.value.priority
            && m.seqNo == sent.value.seqNo && m.enqueuedAt == sent.value.enqueuedAt
            && (!Touched(init, run, id) ==> m.visibleAt == sent.value.visibleAt)
  {
    hide Full, Legal, Final, Sent, Touched, Shows, Carried;
    var init := Fresh(cfg, start);
    var s := Final(init, run);
    FreshFull(cfg, start);
    FullRun(init, run);
    RunCarries(init, run, id);
    RunShows(init, run, id);
    UntouchedIsUnmoved(init, run, id);
    var sent, touched := Sent(init, run, id), Touched(init, run, id);
    var live := Replayed(s.disk.Written()[..keep]).live;
    if id in live && m == live[id] {
      PrefixCarries(s.disk.Written(), keep, id, sent, touched);
      LiveFrom(s.disk.Written()[..keep], id, sent, touched);
    } else {
      MemoryFrom(s, id, m, sent, touched, Moved(init, run, id));
    }
    SentId(init, run, id);
  }

  lemma PrefixCarries(log: seq<Record>, keep: nat, id: Id, sent: Option<Msg>, touched: bool)
    requires Carried(log, id, sent, touched) && keep <= |log|
    ensures Carried(log[..keep], id, sent, touched)
  {
    assert forall rec :: rec in log[..keep] ==> rec in log;
  }

  lemma {:induction false} SentId(init: State, run: seq<Event>, id: Id)
    requires Legal(init, run)
    ensures Sent(init, run, id).Some? ==> Sent(init, run, id).value.id == id
  {
    if run != [] {
      SentId(init, run[..|run| - 1], id);
      hide Step, Enabled;
    }
  }
}
