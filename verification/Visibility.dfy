/** The one field in which memory and log may differ: when a message became
    visible. Two operations set VisibleAt in memory without logging it: ReplayDLQ,
    and a retry whose dead letter record could not be written
    (queue/queue.go:451-455, 507). */
module Visibility {
  import opened Msgs
  import opened Recovery
  import opened Model
  import opened Partition
  import opened Agreement
  import opened Restarts
  import opened Durability

  /** The message whose lease a nack or an expiry ends, and the time it is ended at. */
  ghost function EndedId(s: State, e: Event): Id
    requires Enabled(s, e) && (e.Nack? || e.Expire?)
  {
    if e.Nack? then s.mem.leases[e.receipt] else e.id
  }

  ghost function EndedAt(s: State, e: Event): Time
    requires e.Nack? || e.Expire?
  {
    if e.Nack? then s.clock else e.now
  }

  /** How a step changes the unlogged time of message id. */
  ghost function NextMoved(s: State, e: Event, id: Id, v: Option<Time>): Option<Time>
    requires Enabled(s, e)
  {
    match e
    case ReplayHead(o) => if o == Ok && s.mem.dlq[0].id == id then Some(s.clock) else v
    case Nack(_, _, _) => EndMoved(s, e, id, v)
    case Expire(_, _, _) => EndMoved(s, e, id, v)
    case Enqueue(new', _, _, _, _) => if new' == id then None else v
    case Compact(_) => None
    case Restart(_, _, _) => None
    case _ => v
  }

  /** A message with attempts left is given a time that is logged. An exhausted one
      keeps its time, unless its dead letter record fails. */
  ghost function EndMoved(s: State, e: Event, id: Id, v: Option<Time>): Option<Time>
    requires Enabled(s, e) && (e.Nack? || e.Expire?)
  {
    if EndedId(s, e) != id then v
    else if !s.mem.cfg.Exhausted(s.mem.inflight[id]) then None
    else if e.o == Ok then v
    else Some(EndedAt(s, e))
  }

  /** The time that message id was last given in memory without a record, if that
      is the last it was given: read off the run. */
  ghost function Moved(init: State, run: seq<Event>, id: Id): Option<Time>
    requires Legal(init, run)
  {
    if run == [] then None else
      var front := run[..|run| - 1];
      NextMoved(Final(init, front), run[|run| - 1], id, Moved(init, front, id))
  }

  // ---------- memory ----------

  /** Wherever the message is in memory, it is visible from t on. */
  ghost predicate Times(mem: Memory, id: Id, t: Time) {
    && (id in mem.ready ==> mem.ready[id].visibleAt == t)
    && (id in mem.delayed ==> mem.delayed[id].visibleAt == t)
    && (id in mem.inflight ==> mem.inflight[id].visibleAt == t)
    && (forall m :: m in mem.dlq && m.id == id ==> m.visibleAt == t)
  }

  lemma AbsentTimes(mem: Memory, id: Id, t: Time)
    requires id !in Held(mem)
    ensures Times(mem, id, t)
  {
    assert forall m :: m in mem.dlq ==> m.id in IdsOf(mem.dlq);
  }

  lemma PlaceTimes(mem: Memory, m: Msg, now: Time, id: Id, t: Time)
    requires Times(mem, id, t) && (m.id == id ==> m.visibleAt == t)
    ensures Times(Place(mem, m, now), id, t)
  {
  }

  /** Retrying gives a time to the message retried only. */
  lemma RetryTimes(s: State, m: Msg, now: Time, delay: int, o: Outcome, id: Id, t: Time)
    requires Times(s.mem, id, t)
    requires m.id == id ==>
               t == (if !s.mem.cfg.Exhausted(m) then now + delay else if o == Ok then m.visibleAt else now)
    ensures Times(Retry(s, m, now, delay, o).mem, id, t)
  {
    hide Place;
    if s.mem.cfg.Exhausted(m) {
      if o != Ok {
        PlaceTimes(s.mem, m.(visibleAt := now), now, id, t);
      }
    } else if o == Ok {
      PlaceTimes(s.mem, m.(visibleAt := now + delay), now, id, t);
    }
  }

  /** The time of a message that a nack or an expiry gives back. */
  ghost function EndTime(s: State, e: Event): Time
    requires Enabled(s, e) && (e.Nack? || e.Expire?)
  {
    var m := s.mem.inflight[EndedId(s, e)];
    if !s.mem.cfg.Exhausted(m) then EndedAt(s, e) + (if e.Nack? then e.delay else 0)
    else if e.o == Ok then m.visibleAt else EndedAt(s, e)
  }

  lemma EndingTimes(s: State, e: Event, id: Id, t: Time)
    requires Full(s) && Enabled(s, e) && (e.Nack? || e.Expire?)
    requires if EndedId(s, e) == id then t == EndTime(s, e) else Times(s.mem, id, t)
    ensures Times(Step(s, e).mem, id, t)
  {
    hide Full, Retry, Places, LeaseBijection, Held, Possible;
    var of := EndedId(s, e);
    var m := s.mem.inflight[of];
    InflightMayEnd(s, of);
    FullPlaces(s);
    var mem := if e.Nack? then EndLease(s.mem, m).(nacked := s.mem.nacked + 1)
               else EndLease(s.mem, m).(expired := s.mem.expired + 1);
    EndedHeld(s.mem, of, mem);
    if of == id {
      AbsentTimes(mem, id, t);
    }
    RetryTimes(s.(mem := mem), m.Unleased(), EndedAt(s, e), if e.Nack? then e.delay else 0, e.o, id, t);
  }

  lemma FullPlaces(s: State)
    requires Full(s)
    ensures Places(s.mem) && LeaseBijection(s.mem) && Held(s.mem) <= s.book.used
    ensures Held(s.mem) <= Replayed(s.disk.log).live.Keys
  {
    hide Durably;
  }

  // ---------- the log ----------

  /** The time a record gives message id, if any. */
  ghost function Gives(rec: Record, id: Id): Option<Time> {
    if (rec.op == OpEnqueue || rec.op == OpNack) && rec.msg.Some? && rec.msg.value.id == id
    then Some(rec.msg.value.visibleAt) else None
  }

  lemma ApplyTime(r: Staging, rec: Record, id: Id)
    requires id in Apply(r, rec).live
    ensures id in r.live || (rec.op == OpEnqueue && Gives(rec, id).Some?)
    ensures Apply(r, rec).live[id].visibleAt ==
            if Gives(rec, id).Some? then Gives(rec, id).value else r.live[id].visibleAt
  {
  }

  /** What a step has logged gives a time to a new message, and to one whose lease
      ends with attempts left. */
  lemma LogsGive(s: State, e: Event, id: Id)
    requires Full(s) && Enabled(s, e) && !e.Compact? && !e.Restart?
    ensures |Logs(s, e)| <= 1
    ensures Logs(s, e) != [] ==>
              Gives(Logs(s, e)[0], id) ==
              if e.Enqueue? && e.id == id then Some(NewMsg(s, e).visibleAt)
              else if (e.Nack? || e.Expire?) && EndedId(s, e) == id && !s.mem.cfg.Exhausted(s.mem.inflight[id])
              then Some(EndTime(s, e))
              else None
    ensures Logs(s, e) == [] ==> !(e.Enqueue? && e.o == Ok) && ((e.Nack? || e.Expire?) ==> e.o != Ok)
  {
    hide Full;
    if e.Nack? || e.Expire? {
      InflightMayEnd(s, EndedId(s, e));
    }
  }

  // ---------- both ----------

  /** Memory's time of message id, if memory holds it, is the logged one, or v. */
  ghost predicate Shows(s: State, id: Id, v: Option<Time>) {
    id in Held(s.mem) ==>
      && id in Replayed(s.disk.log).live
      && Times(s.mem, id, if v.Some? then v.value else Replayed(s.disk.log).live[id].visibleAt)
  }

  /** The logged time of a message after a step that logs at most one record. */
  lemma LoggedTime(s: State, e: Event, id: Id)
    requires Full(s) && Enabled(s, e) && !e.Compact? && !e.Restart? && id in Held(Step(s, e).mem)
    ensures var live, live' := Replayed(s.disk.log).live, Replayed(Step(s, e).disk.log).live;
            && id in live' && (id in live || (e.Enqueue? && e.o == Ok && e.id == id))
            && live'[id].visibleAt ==
               if e.Enqueue? && e.o == Ok && e.id == id then NewMsg(s, e).visibleAt
               else if (e.Nack? || e.Expire?) && e.o == Ok && EndedId(s, e) == id
                       && !s.mem.cfg.Exhausted(s.mem.inflight[id]) then EndTime(s, e)
               else live[id].visibleAt
  {
    hide Full, Step, Held, NewMsg, EndTime;
    FullStep(s, e);
    FullPlaces(Step(s, e));
    LogGrows(s, e);
    LogsGive(s, e, id);
    if Logs(s, e) == [] {
      assert s.disk.log + [] == s.disk.log;
    } else {
      var rec := Logs(s, e)[0];
      assert Logs(s, e) == [rec];
      ReadOneMore(s.disk.log, rec);
      ApplyTime(Replayed(s.disk.log), rec, id);
      OutcomeLogs(s, e);
    }
  }

  lemma OutcomeLogs(s: State, e: Event)
    requires Enabled(s, e) && Logs(s, e) != []
    ensures e.Enqueue? || e.Nack? || e.Expire? ==> e.o == Ok
    ensures Logs(s, e)[0].op == OpEnqueue ==> e.Enqueue?
  {
  }

  lemma EnqueueShows(s: State, e: Event, id: Id, v: Option<Time>)
    requires Full(s) && Enabled(s, e) && e.Enqueue? && Shows(s, id, v)
    ensures Shows(Step(s, e), id, NextMoved(s, e, id, v))
  {
    hide Full, Place, Replayed, Held;
    if id in Held(Step(s, e).mem) {
      LoggedTime(s, e, id);
      FullPlaces(s);
      var mem, m := s.mem.(seqNo := NewMsg(s, e).seqNo), NewMsg(s, e);
      SameHeld(s.mem, mem);
      var t := Replayed(Step(s, e).disk.log).live[id].visibleAt;
      if e.id == id {
        AbsentTimes(s.mem, id, t);
        PlaceTimes(mem, m, s.clock, id, t);
      } else {
        var x := if v.Some? then v.value else t;
        if e.o == Ok {
          PlaceHolds(mem, m, s.clock);
          SameHeld(Place(mem, m, s.clock), Step(s, e).mem);
          PlaceTimes(mem, m, s.clock, id, x);
        }
      }
    }
  }

  lemma SameHeld(a: Memory, b: Memory)
    requires b.ready == a.ready && b.delayed == a.delayed && b.inflight == a.inflight && b.dlq == a.dlq
    ensures Held(b) == Held(a)
  {
  }

  /** A message that a failed OpNack append drops is held no longer. */
  lemma DroppedIsOut(s: State, e: Event)
    requires Full(s) && Enabled(s, e) && OpNackFails(s, e)
    ensures EndedId(s, e) !in Held(Step(s, e).mem)
  {
    hide Full, Step, Held;
    BookStep(s, e, EndedId(s, e));
    FullStep(s, e);
    FullDropped(Step(s, e));
  }

  lemma FullDropped(s: State)
    requires Full(s)
    ensures s.book.dropped !! Held(s.mem)
  {
    hide LogAgrees, Durably;
  }

  lemma EndingShows(s: State, e: Event, id: Id, v: Option<Time>)
    requires Full(s) && Enabled(s, e) && (e.Nack? || e.Expire?) && Shows(s, id, v)
    ensures Shows(Step(s, e), id, NextMoved(s, e, id, v))
  {
    hide Full, Step, Replayed, Held, Enabled, EndTime, Times;
    if id in Held(Step(s, e).mem) {
      LoggedTime(s, e, id);
      var of := EndedId(s, e);
      if of == id {
        if OpNackFails(s, e) {
          DroppedIsOut(s, e);
        } else {
          InflightTime(s, e, id, v);
          EndingTimes(s, e, id, EndTime(s, e));
        }
      } else {
        WasHeld(s, e, id);
        EndingTimes(s, e, id, if v.Some? then v.value else Replayed(s.disk.log).live[id].visibleAt);
      }
    }
  }

  lemma InflightTime(s: State, e: Event, id: Id, v: Option<Time>)
    requires Full(s) && Enabled(s, e) && (e.Nack? || e.Expire?) && Shows(s, id, v) && EndedId(s, e) == id
    ensures id in s.mem.inflight && id in Replayed(s.disk.log).live
    ensures EndTime(s, e) ==
            if !s.mem.cfg.Exhausted(s.mem.inflight[id]) then EndedAt(s, e) + (if e.Nack? then e.delay else 0)
            else if e.o != Ok then EndedAt(s, e)
            else if v.Some? then v.value else Replayed(s.disk.log).live[id].visibleAt
  {
    hide Full, Replayed;
    InflightMayEnd(s, id);
  }

  /** Only enqueues and restarts bring a message into the queue. */
  lemma WasHeld(s: State, e: Event, id: Id)
    requires Full(s) && Enabled(s, e) && !e.Enqueue? && !e.Restart? && !e.Compact? && id in Held(Step(s, e).mem)
    ensures id in Held(s.mem)
  {
    hide Full, Step, Held;
    KeptStep(s, e);
    BookStep(s, e, id);
    FullStep(s, e);
    FullDropped(Step(s, e));
    HeldKept(s, id);
    HeldKept(Step(s, e), id);
  }

  lemma HeldKept(s: State, id: Id)
    requires Full(s)
    ensures id in Held(s.mem) <==> id in Kept(s) && id !in s.book.dropped
  {
    hide LogAgrees, Durably;
  }

  lemma ReplayShows(s: State, e: Event, id: Id, v: Option<Time>)
    requires Full(s) && Enabled(s, e) && e.ReplayHead? && Shows(s, id, v)
    ensures Shows(Step(s, e), id, NextMoved(s, e, id, v))
  {
    hide Full, Place, Replayed, Held, IdsOf;
    if id in Held(Step(s, e).mem) {
      LoggedTime(s, e, id);
      FullPlaces(s);
      if e.o == Ok {
        var m, rest := s.mem.dlq[0], s.mem.(dlq := s.mem.dlq[1..]);
        HeadLeaves(s.mem);
        var m' := m.(attempts := 0, visibleAt := s.clock);
        PlaceHolds(rest, m', s.clock);
        if m.id == id {
          AbsentTimes(rest, id, s.clock);
          PlaceTimes(rest, m', s.clock, id, s.clock);
        } else {
          var x := if v.Some? then v.value else Replayed(s.disk.log).live[id].visibleAt;
          assert forall y :: y in rest.dlq ==> y in s.mem.dlq;
          PlaceTimes(rest, m', s.clock, id, x);
        }
      }
    }
  }

  /** Messages that only change places keep their time. */
  lemma MoveTimes(s: State, e: Event, id: Id, t: Time)
    requires Places(s.mem) && Enabled(s, e) && Times(s.mem, id, t)
    requires !e.Enqueue? && !e.Nack? && !e.Expire? && !e.ReplayHead? && !e.Compact? && !e.Restart?
    ensures Times(Step(s, e).mem, id, t)
  {
    hide IdsOf, DistinctIds, Replayed, IsDead, Lists;
  }

  lemma MoveShows(s: State, e: Event, id: Id, v: Option<Time>)
    requires Full(s) && Enabled(s, e) && Shows(s, id, v)
    requires !e.Enqueue? && !e.Nack? && !e.Expire? && !e.ReplayHead? && !e.Compact? && !e.Restart?
    ensures Shows(Step(s, e), id, NextMoved(s, e, id, v))
  {
    hide Full, Step, Held, Replayed, Times, Places, LeaseBijection;
    if id in Held(Step(s, e).mem) {
      LoggedTime(s, e, id);
      FullPlaces(s);
      WasHeld(s, e, id);
      MoveTimes(s, e, id, if v.Some? then v.value else Replayed(s.disk.log).live[id].visibleAt);
    }
  }

  /** A printout gives every message the time it has in memory. */
  lemma CompactShows(s: State, e: Event, id: Id)
    requires Full(s) && Enabled(s, e) && e.Compact?
    ensures Shows(Step(s, e), id, None)
  {
    hide Full, Lists, Replayed, LiveRecords, DistinctIds, Below;
    FullStep(s, e);
    FullPlaces(Step(s, e));
    PrintedAsHeld(s, e.order);
    var r := Replayed(Step(s, e).disk.log);
    if id in Held(s.mem) {
      PrintedTimes(s.mem, e.order, r, id);
    }
  }

  lemma PrintedTimes(mem: Memory, order: seq<Msg>, r: Staging, id: Id)
    requires Places(mem) && Lists(order, mem.ready, mem.delayed, mem.inflight) && id in Held(mem)
    requires Reads(r, mem.cfg, mem.seqNo, order, mem.dlq)
    ensures id in r.live && Times(mem, id, r.live[id].visibleAt)
  {
    hide DistinctIds;
    forall m | m in order || m in mem.dlq
      ensures m.id in r.live && r.live[m.id].visibleAt == m.visibleAt
    {
      if m in order {
        var i :| 0 <= i < |order| && order[i] == m;
      } else {
        var i :| 0 <= i < |mem.dlq| && mem.dlq[i] == m;
      }
    }
  }

  /** A restart gives every message the time it has in the log. */
  lemma RestartShows(s: State, e: Event, id: Id)
    requires Full(s) && Enabled(s, e) && e.Restart?
    ensures Shows(Step(s, e), id, None)
  {
    hide Full, Replayed;
    FullStep(s, e);
    FullPlaces(Step(s, e));
    LiveIsKeyed(Step(s, e).disk.log);
  }

  lemma StepShows(s: State, e: Event, id: Id, v: Option<Time>)
    requires Full(s) && Enabled(s, e) && Shows(s, id, v)
    ensures Shows(Step(s, e), id, NextMoved(s, e, id, v))
  {
    hide Full, Shows, Enabled, Step;
    match e
    case Enqueue(_, _, _, _, _) => EnqueueShows(s, e, id, v);
    case Nack(_, _, _) => EndingShows(s, e, id, v);
    case Expire(_, _, _) => EndingShows(s, e, id, v);
    case ReplayHead(_) => ReplayShows(s, e, id, v);
    case Compact(_) => CompactShows(s, e, id);
    case Restart(_, _, _) => RestartShows(s, e, id);
    case _ => MoveShows(s, e, id, v);
  }

  // ---------- theorems ----------

  lemma {:induction false} RunShows(init: State, run: seq<Event>, id: Id)
    requires Full(init) && Held(init.mem) == {} && Legal(init, run)
    ensures Shows(Final(init, run), id, Moved(init, run, id))
  {
    if run != [] {
      hide Full, Step, Enabled, Shows, Held;
      var front := run[..|run| - 1];
      RunShows(init, front, id);
      FullRun(init, front);
      StepShows(Final(init, front), run[|run| - 1], id, Moved(init, front, id));
    }
  }

  /** In every run, a message that memory holds is in the log, and is visible in
      memory from the time it was last given without a record, if it was not given
      one with a record since, and from the logged time otherwise. So memory and log
      agree on it if and only if there is no such time, or it happens to be the
      logged one. */
  lemma VisibleAtIsLoggedUnlessMoved(cfg: Config, start: Time, run: seq<Event>, id: Id, t: Time)
    requires cfg.Normalized() == cfg && Legal(Fresh(cfg, start), run)
    requires var mem := Final(Fresh(cfg, start), run).mem; id in Held(mem) && Times(mem, id, t)
    ensures var init := Fresh(cfg, start);
            var live, moved := Replayed(Final(init, run).disk.log).live, Moved(init, run, id);
            && id in live
            && t == (if moved.Some? then moved.value else live[id].visibleAt)
            && (t == live[id].visibleAt <==> moved == None || moved.value == live[id].visibleAt)
  {
    hide Full, Legal, Final, Moved, Replayed;
    FreshFull(cfg, start);
    RunShows(Fresh(cfg, start), run, id);
    OneTime(Final(Fresh(cfg, start), run).mem, id);
  }

  lemma OneTime(mem: Memory, id: Id)
    requires id in Held(mem)
    ensures forall t, u :: Times(mem, id, t) && Times(mem, id, u) ==> t == u
  {
  }

  // ---------- two runs in which they differ ----------

  const CFG: Config := Config("q", FIFO, false, 1, 30000)
  const INIT: State := Fresh(CFG, 0)
  const LEASED: seq<Event> := [Enqueue("a", "", 0, 0, Ok), Lease("a", "r", 5), Clock(10)]
  const MSG: Msg := Msg("a", "", 0, 1, 0, 0, 1, "r", 5)

  /** A message with one attempt, visible from 0 on, is leased; it is now 10. */
  lemma LeasedOnce()
    ensures Legal(INIT, LEASED)
    ensures var s := Final(INIT, LEASED);
            && s.mem.inflight == map["a" := MSG] && s.mem.leases == map["r" := "a"] && s.mem.dlq == []
            && s.mem.cfg == CFG && s.clock == 10 && !s.disk.latched
            && Replayed(s.disk.log).live == map["a" := MSG.Unleased()]
  {
    OneMore(INIT, [], LEASED[0]);
    assert [] + [LEASED[0]] == [LEASED[0]];
    OneMore(INIT, [LEASED[0]], LEASED[1]);
    assert [LEASED[0]] + [LEASED[1]] == [LEASED[0], LEASED[1]];
    OneMore(INIT, [LEASED[0], LEASED[1]], LEASED[2]);
    assert [LEASED[0], LEASED[1]] + [LEASED[2]] == LEASED;
    LeasedLog();
  }

  lemma LeasedLog()
    ensures var m := MSG.(attempts := 0).Unleased();
            var log := [CreateRecord(CFG, 0)] + [EnqueueRecord("q", m)] + [LeaseRecord("q", MSG)];
            Replayed(log).live == map["a" := MSG.Unleased()]
  {
    var m := MSG.(attempts := 0).Unleased();
    CreateReads(CFG, 0);
    ReadOneMore([CreateRecord(CFG, 0)], EnqueueRecord("q", m));
    ReadOneMore([CreateRecord(CFG, 0)] + [EnqueueRecord("q", m)], LeaseRecord("q", MSG));
  }

  /** The lease expires, and the dead letter record cannot be written: in memory the
      message is visible from 10 on, in the log from 0 on. */
  lemma DeadFaultMovesVisibleAt()
    ensures var run := LEASED + [Expire("a", 10, NotWritten)];
            && Legal(INIT, run)
            && var s := Final(INIT, run);
            && "a" in s.mem.ready && s.mem.ready["a"].visibleAt == 10
            && "a" in Replayed(s.disk.log).live && Replayed(s.disk.log).live["a"].visibleAt == 0
  {
    hide Legal, Final, Replayed;
    LeasedOnce();
    OneMore(INIT, LEASED, Expire("a", 10, NotWritten));
  }

  /** The message is nacked into the dead letter list and replayed from it: again
      visible from 10 on in memory, and from 0 on in the log. */
  lemma ReplayMovesVisibleAt()
    ensures var run := LEASED + [Nack("r", 0, Ok)] + [ReplayHead(Ok)];
            && Legal(INIT, run)
            && var s := Final(INIT, run);
            && "a" in s.mem.ready && s.mem.ready["a"].visibleAt == 10
            && "a" in Replayed(s.disk.log).live && Replayed(s.disk.log).live["a"].visibleAt == 0
  {
    hide Legal, Final, Replayed;
    LeasedOnce();
    var s := Final(INIT, LEASED);
    var dead := LEASED + [Nack("r", 0, Ok)];
    OneMore(INIT, LEASED, Nack("r", 0, Ok));
    ReadOneMore(s.disk.log, DeadRecord("q", "a"));
    OneMore(INIT, dead, ReplayHead(Ok));
    ReadOneMore(s.disk.log + [DeadRecord("q", "a")], ReplayRecord("q", "a"));
  }
}
