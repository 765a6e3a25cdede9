/** Nothing acknowledged is lost: what every crash, restart and compaction
    keeps of the messages producers and consumers were told about. */
module Durability {
  import opened Msgs
  import opened Recovery
  import opened Model
  import opened Partition
  import opened Agreement
  import opened Restarts

  // ---------- what callers were told, read off the run ----------

  /** IDs whose Enqueue returned success. */
  ghost function Accepted(run: seq<Event>): set<Id> {
    if run == [] then {} else
      var e := run[|run| - 1];
      Accepted(run[..|run| - 1]) + if e.Enqueue? && e.o == Ok then {e.id} else {}
  }

  /** IDs whose Ack returned success. */
  ghost function Acked(init: State, run: seq<Event>): set<Id>
    requires Legal(init, run)
  {
    if run == [] then {} else
      var e, s := run[|run| - 1], Final(init, run[..|run| - 1]);
      Acked(init, run[..|run| - 1]) + if e.Ack? && e.o == Ok then {s.mem.leases[e.receipt]} else {}
  }

  /** IDs with an ack record in the file, acknowledged or not. */
  ghost function AckWritten(init: State, run: seq<Event>): set<Id>
    requires Legal(init, run)
  {
    if run == [] then {} else
      var e, s := run[|run| - 1], Final(init, run[..|run| - 1]);
      AckWritten(init, run[..|run| - 1]) + if e.Ack? && e.o != NotWritten then {s.mem.leases[e.receipt]} else {}
  }

  lemma ToldOneMore(init: State, run: seq<Event>, e: Event)
    requires Legal(init, run) && Enabled(Final(init, run), e) && Legal(init, run + [e])
    ensures Told(Final(init, run), e, (Accepted(run), Acked(init, run), AckWritten(init, run)),
                 (Accepted(run + [e]), Acked(init, run + [e]), AckWritten(init, run + [e])))
  {
    assert (run + [e])[..|run|] == run;
  }

  /** Every append of the run succeeds. */
  ghost predicate Healthy(run: seq<Event>) {
    forall i :: 0 <= i < |run| ==>
      && (run[i].Enqueue? || run[i].Expire? || run[i].Ack? || run[i].Nack? || run[i].ReplayHead? ==> run[i].o == Ok)
      && !run[i].RollBack? && !run[i].OtherLatch?
  }

  // ---------- the messages that memory or log still has ----------

  ghost function Kept(s: State): set<Id> {
    Held(s.mem) + s.book.dropped
  }

  lemma KeptIsLive(s: State)
    requires Full(s)
    ensures Kept(s) == Replayed(s.disk.log).live.Keys
  {
    hide Inv, Durably;
  }

  /** What a restart does to them, by the unacknowledged record it may revive. */
  ghost function Revived(s: State, keep: nat): set<Id> {
    if keep <= |s.disk.log| || s.disk.extra == [] then Kept(s) else
      var rec := s.disk.extra[0];
      if rec.op == OpEnqueue && rec.msg.Some? then Kept(s) + {rec.msg.value.id}
      else if rec.op == OpAck then Kept(s) - {rec.id}
      else Kept(s)
  }

  ghost function KeptAfter(s: State, e: Event): set<Id>
    requires Enabled(s, e)
  {
    match e
    case Enqueue(id, _, _, _, o) => if o == Ok then Kept(s) + {id} else Kept(s)
    case Ack(receipt, o) => if o == Ok then Kept(s) - {s.mem.leases[receipt]} else Kept(s)
    case Compact(_) => Kept(s) - s.book.dropped
    case Restart(keep, _, _) => Revived(s, keep)
    case _ => Kept(s)
  }

  lemma RestartRevives(s: State, keep: nat)
    requires Full(s) && s.disk.synced <= keep <= |s.disk.Written()|
    ensures Replayed(s.disk.Written()[..keep]).live.Keys == Revived(s, keep)
  {
    KeptIsLive(s);
    PrefixReads(s, keep);
    hide Inv, LogAgrees, Kept, Rising;
  }

  /** Only these records change which messages a log holds. */
  lemma ApplyKeys(r: Staging, rec: Record)
    ensures Apply(r, rec).live.Keys ==
            if rec.op == OpEnqueue && rec.msg.Some? then r.live.Keys + {rec.msg.value.id}
            else if rec.op == OpAck then r.live.Keys - {rec.id}
            else r.live.Keys
  {
  }

  lemma LeaseNames(s: State, receipt: Id)
    requires Full(s) && Leases(s.mem, receipt)
    ensures s.mem.inflight[s.mem.leases[receipt]].id == s.mem.leases[receipt]
  {
    hide Durably, LogAgrees, Known;
  }

  lemma KeptLogged(s: State, e: Event)
    requires Full(s) && Enabled(s, e) && !e.Compact? && !e.Restart?
    ensures Kept(Step(s, e)) == KeptAfter(s, e)
  {
    hide Full, Kept, Step, RetryRecord, NewMsg;
    FullStep(s, e);
    KeptIsLive(s);
    KeptIsLive(Step(s, e));
    LogGrows(s, e);
    if e.Ack? {
      LeaseNames(s, e.receipt);
    }
    if Logs(s, e) == [] {
      assert s.disk.log + [] == s.disk.log;
    } else {
      var rec := Logs(s, e)[0];
      ReadOneMore(s.disk.log, rec);
      ApplyKeys(Replayed(s.disk.log), rec);
      RecordKind(s, e);
    }
  }

  /** Which records enqueue or acknowledge a message. */
  lemma RecordKind(s: State, e: Event)
    requires Enabled(s, e) && Logs(s, e) != []
    ensures |Logs(s, e)| == 1
    ensures var rec := Logs(s, e)[0];
            && (rec.op == OpEnqueue <==> e.Enqueue?) && (rec.op == OpAck <==> e.Ack?)
            && (e.Enqueue? ==> rec.msg.Some? && rec.msg.value.id == e.id)
  {
  }

  lemma KeptStep(s: State, e: Event)
    requires Full(s) && Enabled(s, e)
    ensures Kept(Step(s, e)) == KeptAfter(s, e)
  {
    hide Full;
    match e
    case Restart(keep, _, _) =>
      FullStep(s, e);
      KeptIsLive(Step(s, e));
      RestartRevives(s, keep);
    case Compact(_) => DroppedAway(s);
    case _ => KeptLogged(s, e);
  }

  lemma DroppedAway(s: State)
    requires Full(s)
    ensures Kept(s) - s.book.dropped == Held(s.mem)
  {
    hide Durably, LogAgrees;
  }

  // ---------- the promises, kept by every step ----------

  /** No promise is broken in state s, for what callers were told so far. */
  ghost predicate Promises(s: State, accepted: set<Id>, acked: set<Id>, written: set<Id>) {
    && accepted - written - s.book.lost <= Kept(s)
    && acked !! Kept(s)
    && acked <= written <= s.book.used && accepted <= s.book.used
    && (s.disk.extra != [] ==>
          var rec := s.disk.extra[0];
          && (rec.op == OpAck ==> rec.id in written)
          && (rec.op == OpEnqueue && rec.msg.Some? ==> rec.msg.value.id !in acked))
  }

  /** The unacknowledged record is the one a step has just failed to sync. */
  lemma ExtraFrom(s: State, e: Event)
    requires Enabled(s, e) && Tidy(s.disk)
    ensures var extra := Step(s, e).disk.extra;
            || extra == s.disk.extra || extra == []
            || (&& !s.disk.latched && |extra| == 1
                && (extra[0].op == OpAck ==>
                      e.Ack? && e.o == NotSynced && extra[0].id == s.mem.inflight[s.mem.leases[e.receipt]].id)
                && (extra[0].op == OpEnqueue ==> e.Enqueue? && extra[0].msg == Some(NewMsg(s, e))))
  {
    hide Place, Leases, EndLease;
  }

  lemma UsedGrows(s: State, e: Event)
    requires Full(s) && Enabled(s, e)
    ensures s.book.used <= Step(s, e).book.used && s.book.lost <= Step(s, e).book.lost
    ensures e.Enqueue? ==> e.id in Step(s, e).book.used
    ensures e.Compact? ==> s.book.dropped <= Step(s, e).book.lost
    ensures e.Ack? ==> s.mem.leases[e.receipt] in s.book.used
  {
    hide LogAgrees, Durably, Place, EnqueuesOnly, LeaseBijection;
  }

  /** The sets after one more event. */
  ghost predicate Told(s: State, e: Event, sets: (set<Id>, set<Id>, set<Id>), sets': (set<Id>, set<Id>, set<Id>))
    requires Enabled(s, e)
  {
    && sets'.0 == sets.0 + (if e.Enqueue? && e.o == Ok then {e.id} else {})
    && sets'.1 == sets.1 + (if e.Ack? && e.o == Ok then {s.mem.leases[e.receipt]} else {})
    && sets'.2 == sets.2 + (if e.Ack? && e.o != NotWritten then {s.mem.leases[e.receipt]} else {})
  }

  lemma PromisesExtra(s: State, e: Event, x: (set<Id>, set<Id>, set<Id>), y: (set<Id>, set<Id>, set<Id>))
    requires Full(s) && Enabled(s, e) && Promises(s, x.0, x.1, x.2) && Told(s, e, x, y)
    ensures var extra := Step(s, e).disk.extra;
            extra != [] ==>
              && (extra[0].op == OpAck ==> extra[0].id in y.2)
              && (extra[0].op == OpEnqueue && extra[0].msg.Some? ==> extra[0].msg.value.id !in y.1)
  {
    ExtraFrom(s, e);
    hide Step, Durably, LogAgrees, LeaseBijection, Known, Kept;
  }

  lemma PromisesStep(s: State, e: Event, x: (set<Id>, set<Id>, set<Id>), y: (set<Id>, set<Id>, set<Id>))
    requires Full(s) && Enabled(s, e) && Promises(s, x.0, x.1, x.2) && Told(s, e, x, y)
    ensures Promises(Step(s, e), y.0, y.1, y.2)
  {
    hide Full, Step, Kept;
    KeptStep(s, e);
    UsedGrows(s, e);
    PromisesExtra(s, e, x, y);
    KeptUsed(s);
  }

  lemma KeptUsed(s: State)
    requires Full(s)
    ensures Kept(s) <= s.book.used
  {
    hide Durably, LogAgrees;
  }

  lemma {:induction false} PromisesRun(init: State, run: seq<Event>)
    requires Full(init) && Kept(init) == {} && init.disk.extra == [] && Legal(init, run)
    ensures Promises(Final(init, run), Accepted(run), Acked(init, run), AckWritten(init, run))
  {
    hide Full, Step;
    if run != [] {
      var front, e := run[..|run| - 1], run[|run| - 1];
      PromisesRun(init, front);
      FullRun(init, front);
      PromisesStep(Final(init, front), e,
                   (Accepted(front), Acked(init, front), AckWritten(init, front)),
                   (Accepted(run), Acked(init, run), AckWritten(init, run)));
    }
  }

  // ---------- healthy runs ----------

  /** In a healthy run nothing is ever dropped, lost, latched or left unacknowledged. */
  ghost predicate Unharmed(s: State) {
    && !s.book.faulty && !s.disk.latched && s.disk.extra == []
    && s.book.lost == {} && s.book.dropped == {}
  }

  lemma HealthyStep(s: State, e: Event)
    requires Unharmed(s) && Enabled(s, e) && Healthy([e])
    ensures Unharmed(Step(s, e))
  {
    assert [e][0] == e;
    hide Place, EndLease, Leases;
  }

  /** In a healthy run the queue holds exactly the messages enqueued and not
      acknowledged, whatever restarts and compactions happen. */
  lemma {:induction false} HealthyRun(init: State, run: seq<Event>)
    requires Full(init) && Unharmed(init) && Kept(init) == {} && Legal(init, run) && Healthy(run)
    ensures Unharmed(Final(init, run))
    ensures Held(Final(init, run).mem) == Accepted(run) - Acked(init, run)
  {
    if run != [] {
      hide Full, Step, Held, Unharmed;
      var front, e := run[..|run| - 1], run[|run| - 1];
      assert run == front + [e] && Healthy(front) && Healthy([e]) by { HealthySplit(run); }
      HealthyRun(init, front);
      FullRun(init, front);
      PromisesRun(init, front);
      HealthyLast(init, front, e);
    }
  }

  lemma HealthySplit(run: seq<Event>)
    requires run != [] && Healthy(run)
    ensures Healthy(run[..|run| - 1]) && Healthy([run[|run| - 1]])
  {
  }

  lemma HealthyLast(init: State, run: seq<Event>, e: Event)
    requires Legal(init, run) && Full(Final(init, run)) && Unharmed(Final(init, run))
    requires Promises(Final(init, run), Accepted(run), Acked(init, run), AckWritten(init, run))
    requires Enabled(Final(init, run), e) && Healthy([e])
    requires Held(Final(init, run).mem) == Accepted(run) - Acked(init, run)
    ensures Legal(init, run + [e]) && Unharmed(Final(init, run + [e]))
    ensures Held(Final(init, run + [e]).mem) == Accepted(run + [e]) - Acked(init, run + [e])
  {
    hide Full, Step, Held;
    var s := Final(init, run);
    OneMore(init, run, e);
    HealthyStep(s, e);
    KeptStep(s, e);
    assert (run + [e])[..|run|] == run && [e][0] == e;
  }

  /** How many places hold a message. */
  ghost function Copies(mem: Memory, id: Id): nat {
    (if id in mem.ready then 1 else 0) + (if id in mem.delayed then 1 else 0) +
    (if id in mem.inflight then 1 else 0) + (if id in IdsOf(mem.dlq) then 1 else 0)
  }

  // ---------- messages that a failed OpNack append dropped ----------

  /** The step is a nack or an expiry, of a message with attempts left, and its
      OpNack append fails. */
  ghost predicate OpNackFails(s: State, e: Event)
    requires Enabled(s, e)
  {
    match e
    case Nack(receipt, _, o) => o != Ok && !s.mem.cfg.Exhausted(s.mem.inflight[s.mem.leases[receipt]])
    case Expire(id, _, o) => o != Ok && !s.mem.cfg.Exhausted(s.mem.inflight[id])
    case _ => false
  }

  /** The failed OpNack append is about message id. */
  ghost predicate NackFails(s: State, e: Event, id: Id)
    requires Enabled(s, e)
  {
    OpNackFails(s, e) && id == if e.Nack? then s.mem.leases[e.receipt] else e.id
  }

  /** Message id was last seen in a failed OpNack append: no restart has read it
      back from the log since, and no compaction has followed. */
  ghost predicate Dropped(init: State, run: seq<Event>, id: Id)
    requires Legal(init, run)
  {
    run != [] &&
    var front, e := run[..|run| - 1], run[|run| - 1];
    !e.Restart? && !e.Compact? && (NackFails(Final(init, front), e, id) || Dropped(init, front, id))
  }

  /** Message id was dropped at the time of some compaction. */
  ghost predicate Erased(init: State, run: seq<Event>, id: Id)
    requires Legal(init, run)
  {
    run != [] &&
    var front, e := run[..|run| - 1], run[|run| - 1];
    Erased(init, front, id) || (e.Compact? && Dropped(init, front, id))
  }

  lemma RetryBooks(s: State, m: Msg, now: Time, delay: int, o: Outcome)
    ensures Retry(s, m, now, delay, o).book.dropped ==
            s.book.dropped + if o != Ok && !s.mem.cfg.Exhausted(m) then {m.id} else {}
  {
  }

  lemma EndingBooks(s: State, e: Event, id: Id)
    requires Full(s) && Enabled(s, e) && (e.Nack? || e.Expire?)
    ensures id in Step(s, e).book.dropped <==> NackFails(s, e, id) || id in s.book.dropped
  {
    hide Retry, Full, Possible;
    var of := if e.Nack? then s.mem.leases[e.receipt] else e.id;
    var m := s.mem.inflight[of];
    InflightMayEnd(s, of);
    if e.Nack? {
      RetryBooks(s.(mem := EndLease(s.mem, m).(nacked := s.mem.nacked + 1)), m.Unleased(), s.clock, e.delay, e.o);
    } else {
      RetryBooks(s.(mem := EndLease(s.mem, m).(expired := s.mem.expired + 1)), m.Unleased(), e.now, 0, e.o);
    }
  }

  /** How a step moves messages among the dropped and the lost. */
  lemma BookStep(s: State, e: Event, id: Id)
    requires Full(s) && Enabled(s, e)
    ensures id in Step(s, e).book.dropped <==>
            !e.Restart? && !e.Compact? && (NackFails(s, e, id) || id in s.book.dropped)
    ensures id in Step(s, e).book.lost <==> id in s.book.lost || (e.Compact? && id in s.book.dropped)
  {
    LostFrom(s, e);
    if e.Nack? || e.Expire? {
      EndingBooks(s, e, id);
    }
    hide Full, Retry, Place, Replayed, IsDead, Lists, LiveRecords, Possible;
  }

  /** The book keeps what the run shows. */
  lemma {:induction false} BookIsRun(init: State, run: seq<Event>, id: Id)
    requires Full(init) && Legal(init, run) && init.book.dropped == {} && init.book.lost == {}
    ensures id in Final(init, run).book.dropped <==> Dropped(init, run, id)
    ensures id in Final(init, run).book.lost <==> Erased(init, run, id)
  {
    if run != [] {
      hide Full, Step, NackFails, Enabled;
      BookIsRun(init, run[..|run| - 1], id);
      FullRun(init, run[..|run| - 1]);
      BookStep(Final(init, run[..|run| - 1]), run[|run| - 1], id);
    }
  }

  /** What is lost stays lost. */
  ghost predicate Gone(s: State) {
    && s.book.lost !! Kept(s) && s.book.lost <= s.book.used
    && (s.disk.extra != [] && s.disk.extra[0].op == OpEnqueue && s.disk.extra[0].msg.Some? ==>
          s.disk.extra[0].msg.value.id !in s.book.lost)
  }

  lemma LostFrom(s: State, e: Event)
    requires Enabled(s, e)
    ensures Step(s, e).book.lost == if e.Compact? then s.book.lost + s.book.dropped else s.book.lost
    ensures e.Compact? ==> Step(s, e).disk.extra == []
  {
    hide Place, Replayed, IsDead, Lists, LiveRecords, Leases;
  }

  lemma GoneStep(s: State, e: Event)
    requires Full(s) && Enabled(s, e) && Gone(s)
    ensures Gone(Step(s, e))
  {
    hide Full, Step, Kept;
    KeptStep(s, e);
    KeptUsed(s);
    UsedGrows(s, e);
    LostFrom(s, e);
    DroppedIsKept(s);
    FullParts(s);
    ExtraFrom(s, e);
  }

  lemma DroppedIsKept(s: State)
    ensures s.book.dropped <= Kept(s)
  {
  }

  lemma {:induction false} GoneRun(init: State, run: seq<Event>)
    requires Full(init) && Gone(init) && Legal(init, run)
    ensures Gone(Final(init, run))
  {
    if run != [] {
      hide Full, Step, Gone;
      GoneRun(init, run[..|run| - 1]);
      FullRun(init, run[..|run| - 1]);
      GoneStep(Final(init, run[..|run| - 1]), run[|run| - 1]);
    }
  }

  // ---------- crashes ----------

  /** What any crash leaves of the messages, for what callers were told so far. */
  lemma CrashKeeps(s: State, keep: nat, accepted: set<Id>, acked: set<Id>, written: set<Id>)
    requires Full(s) && Promises(s, accepted, acked, written) && Gone(s)
    requires s.disk.synced <= keep <= |s.disk.Written()|
    ensures var live := Replayed(s.disk.Written()[..keep]).live;
            acked !! live.Keys && forall id :: id in accepted - written ==> (id in live <==> id !in s.book.lost)
  {
    hide Full, Kept;
    RestartRevives(s, keep);
  }

  /** A crash at any point of any run, keeping any prefix of the file that covers
      the last fsync, leaves a log that reads back: under the queue's own config,
      and with none of the messages whose Ack succeeded. A message whose Enqueue
      succeeded and whose ack was never written is there if and only if no
      compaction erased it after a failed OpNack append. The un-synced tail is lease
      records and at most one unacknowledged record, so what it loses is attempts. */
  lemma CrashKeepsPromises(cfg: Config, start: Time, run: seq<Event>, keep: nat)
    requires cfg.Normalized() == cfg && Legal(Fresh(cfg, start), run)
    requires var d := Final(Fresh(cfg, start), run).disk; d.synced <= keep <= |d.Written()|
    ensures var init := Fresh(cfg, start);
            var s := Final(init, run);
            var r := Replayed(s.disk.Written()[..keep]);
            && Sound(r, s.clock) && r.cfg == Some(s.mem.cfg)
            && (forall id :: id in Accepted(run) - AckWritten(init, run) ==>
                  (id in r.live <==> !Erased(init, run, id)))
            && Acked(init, run) !! r.live.Keys
            && Rising(s.disk.log, s.disk.synced) && |s.disk.extra| <= 1
            && (keep <= |s.disk.log| ==> Lower(r, Replayed(s.disk.log)))
  {
    hide Full, Rising, Lower, Sound, Accepted, Acked, AckWritten, Erased, Kept, Gone, Legal, Final;
    var init := Fresh(cfg, start);
    FreshFull(cfg, start);
    FreshKeepsNothing(cfg, start);
    FullRun(init, run);
    PromisesRun(init, run);
    GoneRun(init, run);
    var s := Final(init, run);
    FullParts(s);
    PrefixSound(s, keep);
    PrefixReads(s, keep);
    CrashKeeps(s, keep, Accepted(run), Acked(init, run), AckWritten(init, run));
    forall id
      ensures id in s.book.lost <==> Erased(init, run, id)
    {
      BookIsRun(init, run, id);
    }
  }

  // ---------- exactly one place ----------

  lemma CopiesHeld(s: State, id: Id)
    requires Full(s)
    ensures Copies(s.mem, id) == if id in Held(s.mem) then 1 else 0
    ensures id in Held(s.mem) <==> id in Kept(s) && id !in s.book.dropped
    ensures LeaseBijection(s.mem)
  {
    hide LogAgrees, Durably;
  }

  /** In every run, failed appends, restarts and compactions included: no message
      is in two places, a message whose Ack succeeded is in none, and one whose
      Enqueue succeeded and whose ack was never written is in one, if and only if no
      failed OpNack append has dropped it, to be read back by the next restart, or
      for good if a compaction came first. Receipts and inflight messages name
      each other throughout. */
  lemma ExactlyOnePlace(cfg: Config, start: Time, run: seq<Event>, id: Id)
    requires cfg.Normalized() == cfg && Legal(Fresh(cfg, start), run)
    ensures var init := Fresh(cfg, start);
            var s := Final(init, run);
            && Copies(s.mem, id) <= 1 && LeaseBijection(s.mem)
            && (id in Acked(init, run) ==> Copies(s.mem, id) == 0)
            && (id in Accepted(run) - AckWritten(init, run) ==>
                  (Copies(s.mem, id) == 1 <==> !Dropped(init, run, id) && !Erased(init, run, id)))
  {
    hide Full, Accepted, Acked, AckWritten, Legal, Final, Copies, Kept, Held, LeaseBijection;
    var init := Fresh(cfg, start);
    FreshFull(cfg, start);
    FreshKeepsNothing(cfg, start);
    FullRun(init, run);
    PromisesRun(init, run);
    GoneRun(init, run);
    BookIsRun(init, run, id);
    CopiesHeld(Final(init, run), id);
  }

  lemma FreshKeepsNothing(cfg: Config, start: Time)
    ensures Kept(Fresh(cfg, start)) == {} && Gone(Fresh(cfg, start))
  {
  }

  /** No OpNack append of the run fails. Any other append may. */
  ghost predicate NacksLogged(init: State, run: seq<Event>)
    requires Legal(init, run)
  {
    run == [] ||
    (NacksLogged(init, run[..|run| - 1]) &&
     !OpNackFails(Final(init, run[..|run| - 1]), run[|run| - 1]))
  }

  lemma {:induction false} NothingDropped(init: State, run: seq<Event>, id: Id)
    requires Legal(init, run) && NacksLogged(init, run)
    ensures !Dropped(init, run, id) && !Erased(init, run, id)
  {
    if run != [] {
      hide OpNackFails, Step, Enabled;
      NothingDropped(init, run[..|run| - 1], id);
    }
  }

  /** So as long as no OpNack append fails, whatever else does, each message
      enqueued and not acked is in exactly one place. */
  lemma ExactlyOnePlaceUnlessNackFails(cfg: Config, start: Time, run: seq<Event>, id: Id)
    requires cfg.Normalized() == cfg && Legal(Fresh(cfg, start), run) && NacksLogged(Fresh(cfg, start), run)
    requires id in Accepted(run) - AckWritten(Fresh(cfg, start), run)
    ensures Copies(Final(Fresh(cfg, start), run).mem, id) == 1
  {
    hide Accepted, AckWritten, Acked, Legal, Final, Copies, Dropped, Erased, NacksLogged, LeaseBijection;
    NothingDropped(Fresh(cfg, start), run, id);
    ExactlyOnePlace(cfg, start, run, id);
  }
}
