/** One queue as a state machine: what its memory and its part of the log become
    at every step taken under the queue lock (queue/queue.go, queue/manager.go).

    An operation is a run of these steps. Loops take one step per iteration, so
    the mutable Queue in module Queues performs them one at a time and keeps the
    run as a ghost trace. Time, generated IDs and the fate of every append are
    parts of the steps, so a statement about all runs covers all of them. */
module Model {
  import opened Msgs
  import opened Recovery

  /** How an append ended. Only Ok is reported as success. After NotSynced the
      record's bytes are in the file, but the log is latched as unusable. */
  datatype Outcome = Ok | NotWritten | NotSynced

  datatype Memory = Memory(
    cfg: Config,
    seqNo: nat,
    ready: map<Id, Msg>,
    delayed: map<Id, Msg>,
    inflight: map<Id, Msg>,
    leases: map<Id, Id>,      // receipt -> message ID
    dlq: seq<Msg>,
    enqueued: nat,
    delivered: nat,
    acked: nat,
    nacked: nat,
    expired: nat,
    wake: nat,                // generation of the wake channel
    owed: bool)               // ready has grown since the last signal

  /** The records of one queue, in log order. */
  datatype Disk = Disk(
    log: seq<Record>,         // appended and acknowledged
    extra: seq<Record>,       // at most one: written, but its fsync failed
    synced: nat,              // how much of log an fsync covers
    latched: bool)
  {
    function Written(): seq<Record> {
      log + extra
    }

    /** AppendSync */
    function Durable(rec: Record, o: Outcome): Disk {
      match o
      case Ok => this.(log := log + [rec], synced := |log| + 1)
      case NotWritten => this
      case NotSynced => this.(extra := [rec], latched := true)
    }

    /** Append, when it succeeds */
    function Lazy(rec: Record): Disk {
      this.(log := log + [rec])
    }
  }

  /** History that no code reads, kept to state properties of runs. */
  datatype Book = Book(
    used: set<Id>,            // every ID and receipt generated so far
    dropped: set<Id>,         // out of memory after a failed OpNack append, still in the log
    lost: set<Id>,            // dropped, and then compacted out of the log
    drops: nat,               // messages dropped since the last restart
    restored: nat,            // messages the last restart reinstalled
    restarts: nat,
    deadFaults: nat,          // failed OpDLQ appends
    faulty: bool)             // a failed append may have parted memory and log since the last restart

  datatype State = State(mem: Memory, disk: Disk, book: Book, clock: Time)

  datatype Event =
    | Clock(t: Time)
    | Enqueue(id: Id, body: string, priority: int, delay: int, o: Outcome)
    | Promote(id: Id, now: Time)
    | Expire(id: Id, now: Time, o: Outcome)
    | Lease(id: Id, receipt: Id, expiry: Time)
    | RollBack(id: Id, receipt: Id, expiry: Time)
    | Ack(receipt: Id, o: Outcome)
    | Extend(receipt: Id, expiry: Time)
    | Nack(receipt: Id, delay: int, o: Outcome)
    | ReplayHead(o: Outcome)
    | Signal
    | OtherSync
    | OtherLatch
    | Compact(order: seq<Msg>)
    | Restart(keep: nat, now: Time, dead: seq<Msg>)

  // ---------- the pieces of a step ----------

  /** placeLocked */
  function Place(mem: Memory, m: Msg, now: Time): Memory {
    if m.Ready(now) then mem.(ready := mem.ready[m.id := m], owed := true)
    else mem.(delayed := mem.delayed[m.id := m])
  }

  lemma PlaceFrame(mem: Memory, m: Msg, now: Time)
    ensures var t := Place(mem, m, now);
            t == mem.(ready := t.ready, delayed := t.delayed, owed := t.owed)
  {
  }

  /** The lease of m ends: what Nack and the expiry loop do before retrying. */
  function EndLease(mem: Memory, m: Msg): Memory {
    mem.(inflight := mem.inflight - {m.id}, leases := mem.leases - {m.receipt})
  }

  /** retryLocked, for a message already taken out of inflight */
  function Retry(s: State, m: Msg, now: Time, delay: int, o: Outcome): State {
    if s.mem.cfg.Exhausted(m) then
      var disk := s.disk.Durable(DeadRecord(s.mem.cfg.name, m.id), o);
      if o == Ok then s.(mem := s.mem.(dlq := s.mem.dlq + [m]), disk := disk)
      else s.(mem := Place(s.mem, m.(visibleAt := now), now), disk := disk,
              book := s.book.(deadFaults := s.book.deadFaults + 1, faulty := true))
    else
      var back := m.(visibleAt := now + delay);
      var disk := s.disk.Durable(NackRecord(s.mem.cfg.name, back), o);
      if o == Ok then s.(mem := Place(s.mem, back, now), disk := disk)
      else s.(disk := disk, book := s.book.(dropped := s.book.dropped + {m.id},
                                                 drops := s.book.drops + 1, faulty := true))
  }

  /** Retrying moves one message; the rest of memory is as it was. */
  lemma RetryFrame(s: State, m: Msg, now: Time, delay: int, o: Outcome)
    ensures var t := Retry(s, m, now, delay, o);
            && t.clock == s.clock && t.book.used == s.book.used && t.book.lost == s.book.lost
            && t.mem == s.mem.(ready := t.mem.ready, delayed := t.mem.delayed, dlq := t.mem.dlq, owed := t.mem.owed)
  {
  }

  function NewMsg(s: State, e: Event): Msg
    requires e.Enqueue?
  {
    Msg(e.id, e.body, e.priority, s.mem.seqNo + 1, s.clock + e.delay, s.clock, 0, NO_RECEIPT, ZERO_TIME)
  }

  function EnqueueStep(s: State, e: Event): State
    requires e.Enqueue?
  {
    var m := NewMsg(s, e);
    var disk := s.disk.Durable(EnqueueRecord(s.mem.cfg.name, m), e.o);
    var mem := s.mem.(seqNo := m.seqNo);
    var book := s.book.(used := s.book.used + {e.id});
    if e.o == Ok then
      State(Place(mem, m, s.clock).(enqueued := mem.enqueued + 1), disk, book, s.clock)
    else
      State(mem, disk, book.(faulty := true), s.clock)
  }

  function LeaseStep(s: State, e: Event): State
    requires e.Lease? && e.id in s.mem.ready
  {
    var m := s.mem.ready[e.id].Leased(e.receipt, e.expiry);
    s.(mem := s.mem.(ready := s.mem.ready - {e.id},
                     inflight := s.mem.inflight[e.id := m],
                     leases := s.mem.leases[e.receipt := e.id],
                     delivered := s.mem.delivered + 1),
       disk := s.disk.Lazy(LeaseRecord(s.mem.cfg.name, m)),
       book := s.book.(used := s.book.used + {e.receipt}))
  }

  function RollBackStep(s: State, e: Event): State
    requires e.RollBack? && e.id in s.mem.ready
  {
    var m := s.mem.ready[e.id].Leased(e.receipt, e.expiry);
    s.(disk := s.disk.Lazy(LeaseRecord(s.mem.cfg.name, m)),
       book := s.book.(used := s.book.used + {e.receipt}, faulty := true))
  }

  function AckStep(s: State, e: Event): State
    requires e.Ack? && Leases(s.mem, e.receipt)
  {
    var m := s.mem.inflight[s.mem.leases[e.receipt]];
    var disk := s.disk.Durable(AckRecord(s.mem.cfg.name, m.id), e.o);
    if e.o == Ok then s.(mem := EndLease(s.mem, m).(acked := s.mem.acked + 1), disk := disk)
    else s.(disk := disk, book := s.book.(faulty := true))
  }

  function NackStep(s: State, e: Event): State
    requires e.Nack? && Leases(s.mem, e.receipt)
  {
    var m := s.mem.inflight[s.mem.leases[e.receipt]];
    Retry(s.(mem := EndLease(s.mem, m).(nacked := s.mem.nacked + 1)), m.Unleased(), s.clock, e.delay, e.o)
  }

  function ExpireStep(s: State, e: Event): State
    requires e.Expire? && e.id in s.mem.inflight
  {
    var m := s.mem.inflight[e.id];
    Retry(s.(mem := EndLease(s.mem, m).(expired := s.mem.expired + 1)), m.Unleased(), e.now, 0, e.o)
  }

  function ExtendStep(s: State, e: Event): State
    requires e.Extend? && Leases(s.mem, e.receipt)
  {
    var m := s.mem.inflight[s.mem.leases[e.receipt]];
    s.(mem := s.mem.(inflight := s.mem.inflight[m.id := m.(leaseExpiry := e.expiry)]))
  }

  function ReplayStep(s: State, e: Event): State
    requires e.ReplayHead? && s.mem.dlq != []
  {
    var m := s.mem.dlq[0];
    var disk := s.disk.Durable(ReplayRecord(s.mem.cfg.name, m.id), e.o);
    if e.o == Ok then
      s.(mem := Place(s.mem.(dlq := s.mem.dlq[1..]), m.(attempts := 0, visibleAt := s.clock), s.clock),
         disk := disk)
    else s.(disk := disk, book := s.book.(faulty := true))
  }

  /** Compaction replaces this queue's records by the printout of its memory. */
  function CompactStep(s: State, e: Event): State
    requires e.Compact?
  {
    var log := LiveRecords(s.mem.cfg, s.mem.seqNo, e.order, s.mem.dlq);
    s.(disk := Disk(log, [], |log|, false),
       book := s.book.(lost := s.book.lost + s.book.dropped, dropped := {}))
  }

  /** restore, on a queue that New has just built */
  function Restored(r: Staging, dead: seq<Msg>, now: Time): Memory
    requires r.cfg.Some?
  {
    Memory(r.cfg.value, r.maxSeq,
           map id | id in r.live && id !in r.dlq && r.live[id].Ready(now) :: r.live[id].Unleased(),
           map id | id in r.live && id !in r.dlq && !r.live[id].Ready(now) :: r.live[id].Unleased(),
           map[], map[], dead, 0, 0, 0, 0, 0, 0, false)
  }

  function RestartStep(s: State, e: Event): State
    requires e.Restart? && e.keep <= |s.disk.Written()|
    requires Replayed(s.disk.Written()[..e.keep]).cfg.Some?
  {
    var log := s.disk.Written()[..e.keep];
    var r := Replayed(log);
    State(Restored(r, e.dead, e.now), Disk(log, [], e.keep, false),
          s.book.(dropped := {}, drops := 0, restored := |r.live|, restarts := s.book.restarts + 1, faulty := false),
          e.now)
  }

  // ---------- steps and runs ----------

  /** The receipt is in the lease table and leads to an inflight message. */
  predicate Leases(mem: Memory, receipt: Id) {
    receipt in mem.leases && mem.leases[receipt] in mem.inflight
  }

  /** A fault can only follow the latch as a refusal. */
  predicate Possible(disk: Disk, o: Outcome) {
    disk.latched ==> o == NotWritten
  }

  ghost predicate Enabled(s: State, e: Event) {
    match e
    case Clock(t) => s.clock <= t
    case Enqueue(id, _, priority, _, o) =>
      && id !in s.book.used && id != NO_RECEIPT && Possible(s.disk, o)
      && (priority == 0 || s.mem.cfg.priority)
    case Promote(id, now) => id in s.mem.delayed && s.mem.delayed[id].Ready(now) && now <= s.clock
    case Expire(id, now, o) =>
      id in s.mem.inflight && s.mem.inflight[id].leaseExpiry <= now <= s.clock && Possible(s.disk, o)
    case Lease(id, receipt, _) =>
      id in s.mem.ready && receipt !in s.book.used && receipt != NO_RECEIPT && !s.disk.latched
    case RollBack(id, receipt, _) =>
      id in s.mem.ready && receipt !in s.book.used && receipt != NO_RECEIPT && !s.disk.latched
    case Ack(receipt, o) => Leases(s.mem, receipt) && Possible(s.disk, o)
    case Extend(receipt, _) => Leases(s.mem, receipt)
    case Nack(receipt, _, o) => Leases(s.mem, receipt) && Possible(s.disk, o)
    case ReplayHead(o) => s.mem.dlq != [] && Possible(s.disk, o)
    case Signal => true
    case OtherSync => !s.disk.latched
    case OtherLatch => true
    case Compact(order) => !s.disk.latched && Lists(order, s.mem.ready, s.mem.delayed, s.mem.inflight)
    case Restart(keep, now, dead) =>
      && s.disk.synced <= keep <= |s.disk.Written()| && s.clock <= now
      && Replayed(s.disk.Written()[..keep]).cfg.Some?
      && IsDead(Replayed(s.disk.Written()[..keep]), dead)
  }

  ghost function Step(s: State, e: Event): State
    requires Enabled(s, e)
  {
    match e
    case Clock(t) => s.(clock := t)
    case Enqueue(_, _, _, _, _) => EnqueueStep(s, e)
    case Promote(id, _) =>
      s.(mem := s.mem.(delayed := s.mem.delayed - {id},
                       ready := s.mem.ready[id := s.mem.delayed[id]],
                       owed := true))
    case Expire(_, _, _) => ExpireStep(s, e)
    case Lease(_, _, _) => LeaseStep(s, e)
    case RollBack(_, _, _) => RollBackStep(s, e)
    case Ack(_, _) => AckStep(s, e)
    case Extend(_, _) => ExtendStep(s, e)
    case Nack(_, _, _) => NackStep(s, e)
    case ReplayHead(_) => ReplayStep(s, e)
    case Signal => s.(mem := s.mem.(wake := s.mem.wake + 1, owed := false))
    case OtherSync => s.(disk := s.disk.(synced := |s.disk.log|))
    case OtherLatch => s.(disk := s.disk.(latched := true))
    case Compact(_) => CompactStep(s, e)
    case Restart(_, _, _) => RestartStep(s, e)
  }

  /** The record retryLocked writes for a message. */
  function RetryRecord(cfg: Config, m: Msg, now: Time, delay: int): Record {
    if cfg.Exhausted(m) then DeadRecord(cfg.name, m.id)
    else NackRecord(cfg.name, m.(visibleAt := now + delay))
  }

  /** What happened to a queue's part of the log, from a to b, happened to the
      whole log, from c to d: the same records appended, the same one left
      unacknowledged, the same fsyncs and the same latch. */
  ghost predicate Alike(a: Disk, b: Disk, c: Disk, d: Disk) {
    && a.log <= b.log && c.log <= d.log && b.log[|a.log|..] == d.log[|c.log|..]
    && b.latched == d.latched && (c.latched ==> d.latched)
    && (if d.latched == c.latched then b.extra == a.extra && d.extra == c.extra else b.extra == d.extra)
    && (|| (b.synced == a.synced && d.synced == c.synced)
        || (b.synced > |a.log| && d.synced == |c.log| + b.synced - |a.log|))
  }

  /** The records a step writes and has acknowledged. */
  ghost function Logs(s: State, e: Event): seq<Record>
    requires Enabled(s, e)
  {
    var name := s.mem.cfg.name;
    match e
    case Enqueue(_, _, _, _, o) => if o == Ok then [EnqueueRecord(name, NewMsg(s, e))] else []
    case Expire(id, now, o) =>
      if o == Ok then [RetryRecord(s.mem.cfg, s.mem.inflight[id].Unleased(), now, 0)] else []
    case Lease(id, receipt, expiry) => [LeaseRecord(name, s.mem.ready[id].Leased(receipt, expiry))]
    case RollBack(id, receipt, expiry) => [LeaseRecord(name, s.mem.ready[id].Leased(receipt, expiry))]
    case Ack(receipt, o) =>
      if o == Ok then [AckRecord(name, s.mem.inflight[s.mem.leases[receipt]].id)] else []
    case Nack(receipt, delay, o) =>
      if o == Ok then
        [RetryRecord(s.mem.cfg, s.mem.inflight[s.mem.leases[receipt]].Unleased(), s.clock, delay)]
      else []
    case ReplayHead(o) => if o == Ok then [ReplayRecord(name, s.mem.dlq[0].id)] else []
    case _ => []
  }

  lemma LogGrows(s: State, e: Event)
    requires Enabled(s, e) && !e.Compact? && !e.Restart?
    ensures Step(s, e).disk.log == s.disk.log + Logs(s, e)
  {
    hide Place, Leases;
  }

  /** A queue just created: its create record is durable and it holds nothing. */
  function Fresh(cfg: Config, clock: Time): State {
    State(Memory(cfg, 0, map[], map[], map[], map[], [], 0, 0, 0, 0, 0, 0, false),
          Disk([CreateRecord(cfg, 0)], [], 1, false),
          Book({}, {}, {}, 0, 0, 0, 0, false),
          clock)
  }

  /** The steps of a run, each enabled where it happens. */
  ghost predicate Legal(init: State, run: seq<Event>)
    decreases |run|, 0
  {
    run == [] || (Legal(init, run[..|run| - 1]) &&
                  Enabled(Final(init, run[..|run| - 1]), run[|run| - 1]))
  }

  ghost function Final(init: State, run: seq<Event>): State
    requires Legal(init, run)
    decreases |run|, 1
  {
    if run == [] then init else Step(Final(init, run[..|run| - 1]), run[|run| - 1])
  }

  lemma OneMore(init: State, run: seq<Event>, e: Event)
    requires Legal(init, run) && Enabled(Final(init, run), e)
    ensures Legal(init, run + [e]) && Final(init, run + [e]) == Step(Final(init, run), e)
  {
    assert (run + [e])[..|run|] == run;
    hide Enabled, Step;
  }
}
