/** Many queues over one file: creating queues, using them, compacting and
    restarting all of them at once (Create, Compact and recover in
    queue/manager.go). The shared file is all that recovery has to go on; the
    steps below also keep each queue's own run, and the invariant is that the
    file's records for a queue are exactly the log of that run. */
module Systems {
  import opened Msgs
  import opened Recovery
  import opened Model
  import opened Partition
  import opened Restarts
  import opened Durability
  import opened Refinement
  import opened Sequences
  import opened DeadLetters
  import opened SharedLog

  /** One queue since it was created: its run, and where that has led. */
  datatype Life = Life(cfg: Config, start: Time, run: seq<Event>, state: State)

  datatype Sys = Sys(file: Disk, queues: map<string, Life>)

  datatype Action =
    | Create(cfg: Config, now: Time, o: Outcome)
    | On(name: string, e: Event)
    | Sync
    | Latch
    | CompactAll(epoch: nat, names: seq<string>, orders: map<string, seq<Msg>>)
    | Crash(keep: nat, now: Time, deads: map<string, seq<Msg>>)

  ghost predicate Alive(l: Life) {
    && l.cfg.Normalized() == l.cfg && Legal(Fresh(l.cfg, l.start), l.run)
    && l.state == Final(Fresh(l.cfg, l.start), l.run)
  }

  function Born(cfg: Config, now: Time): Life {
    Life(cfg, now, [], Fresh(cfg, now))
  }

  ghost function Lived(l: Life, e: Event): Life
    requires Enabled(l.state, e)
  {
    l.(run := l.run + [e], state := Step(l.state, e))
  }

  lemma AliveStays(l: Life, e: Event)
    requires Alive(l) && Enabled(l.state, e)
    ensures Alive(Lived(l, e))
  {
    OneMore(Fresh(l.cfg, l.start), l.run, e);
    hide Enabled, Step, Legal, Final;
  }

  // ---------- steps ----------

  /** How the durable append of a step ended, for a step that has one. */
  function Fate(e: Event): Option<Outcome> {
    match e
    case Enqueue(_, _, _, _, o) => Some(o)
    case Expire(_, _, o) => Some(o)
    case Ack(_, o) => Some(o)
    case Nack(_, _, o) => Some(o)
    case ReplayHead(o) => Some(o)
    case _ => None
  }

  /** Steps a queue takes by itself. */
  predicate Local(e: Event) {
    !e.OtherSync? && !e.OtherLatch? && !e.Compact? && !e.Restart?
  }

  /** What a queue's neighbours see of its step: an fsync covers the whole file,
      and a failed one latches it for everybody. */
  ghost function Seen(l: Life, fate: Option<Outcome>): Life {
    match fate
    case Some(Ok) => if l.state.disk.latched then l else Lived(l, OtherSync)
    case Some(NotSynced) => Lived(l, OtherLatch)
    case _ => l
  }

  ghost function Neighbours(queues: map<string, Life>, fate: Option<Outcome>): map<string, Life> {
    map n | n in queues :: Seen(queues[n], fate)
  }

  /** The file after one queue's step. */
  ghost function FileAfter(file: Disk, l: Life, e: Event): Disk
    requires Enabled(l.state, e)
  {
    var written := file.(log := file.log + Logs(l.state, e));
    match Fate(e)
    case Some(Ok) => written.(synced := |written.log|)
    case Some(NotSynced) => written.(extra := Step(l.state, e).disk.extra, latched := true)
    case _ => written
  }

  /** The records of all queues, as compaction writes them. */
  ghost function Printout(queues: map<string, Life>, names: seq<string>, orders: map<string, seq<Msg>>): seq<Record>
    requires forall n :: n in names ==> n in queues && n in orders
  {
    if names == [] then [] else
      var n := names[|names| - 1];
      Printout(queues, names[..|names| - 1], orders) + Print(queues[n].state.mem, orders[n])
  }

  /** The records of one queue. */
  function Print(mem: Memory, order: seq<Msg>): seq<Record> {
    LiveRecords(mem.cfg, mem.seqNo, order, mem.dlq)
  }

  /** What Create demands of a config. */
  predicate Admissible(cfg: Config) {
    cfg.name != "" && (forall c :: c in cfg.name ==> c !in "/?#% ") && (cfg.mode == FIFO || cfg.mode == LIFO)
  }

  /** The file a crash leaves. */
  function Cut(file: Disk, keep: nat): seq<Record>
    requires keep <= |file.Written()|
  {
    file.Written()[..keep]
  }

  ghost predicate Can(sys: Sys, a: Action) {
    match a
    case Create(cfg, _, o) =>
      Admissible(cfg) && cfg.name !in sys.queues && Possible(sys.file, o)
    case On(n, e) => n in sys.queues && Local(e) && Enabled(sys.queues[n].state, e)
    case Sync => !sys.file.latched
    case Latch => true
    case CompactAll(_, names, orders) =>
      && !sys.file.latched
      && (forall i, j :: 0 <= i < j < |names| ==> names[i] != names[j])
      && (forall n :: n in names <==> n in sys.queues)
      && orders.Keys == sys.queues.Keys
      && forall n :: n in sys.queues ==> Enabled(sys.queues[n].state, Model.Compact(orders[n]))
    case Crash(keep, now, deads) =>
      && sys.file.synced <= keep <= |sys.file.Written()|
      && !Refused(ReadAll(Cut(sys.file, keep)))
      && deads.Keys == sys.queues.Keys
      && forall n :: n in sys.queues ==> Enabled(sys.queues[n].state, RestartOf(sys.file, n, keep, now, deads[n]))
  }

  /** What a crash of the file is to one queue. */
  function RestartOf(file: Disk, n: string, keep: nat, now: Time, dead: seq<Msg>): Event
    requires keep <= |file.Written()|
  {
    Restart(|Part(Cut(file, keep), n)|, now, dead)
  }

  /** A queue whose creation was never acknowledged, restored empty. */
  ghost function Reborn(cfg: Config, now: Time): Life {
    var e := Restart(1, now, []);
    if Enabled(Fresh(cfg, now), e) then Lived(Born(cfg, now), e) else Born(cfg, now)
  }

  lemma CanRevive(cfg: Config, now: Time)
    requires cfg.Normalized() == cfg
    ensures Enabled(Fresh(cfg, now), Restart(1, now, []))
  {
    CreateReads(cfg, 0);
    var written := Fresh(cfg, now).disk.Written();
    assert written[..1] == [CreateRecord(cfg, 0)];
  }

  ghost function Restarted(sys: Sys, a: Action, n: string): Life
    requires a.Crash? && Can(sys, a)
    requires n in ReadAll(Cut(sys.file, a.keep)).queues
  {
    if n in sys.queues then Lived(sys.queues[n], RestartOf(sys.file, n, a.keep, a.now, a.deads[n]))
    else Reborn(ReadAll(Cut(sys.file, a.keep)).queues[n], a.now)
  }

  ghost function Next(sys: Sys, a: Action): Sys
    requires Can(sys, a)
  {
    match a
    case Create(cfg, now, o) =>
      var c := cfg.Normalized();
      var file := sys.file.Durable(CreateRecord(c, 0), o);
      var rest := Neighbours(sys.queues, Some(o));
      Sys(file, if o == Ok then rest[c.name := Born(c, now)] else rest)
    case On(n, e) =>
      Sys(FileAfter(sys.file, sys.queues[n], e), Neighbours(sys.queues, Fate(e))[n := Lived(sys.queues[n], e)])
    case Sync => Sys(sys.file.(synced := |sys.file.log|), Neighbours(sys.queues, Some(Ok)))
    case Latch => Sys(sys.file.(latched := true), Neighbours(sys.queues, Some(NotSynced)))
    case CompactAll(epoch, names, orders) =>
      var log := [EpochRecord(epoch)] + Printout(sys.queues, names, orders);
      Sys(Disk(log, [], |log|, false),
          map n | n in sys.queues :: Lived(sys.queues[n], Model.Compact(orders[n])))
    case Crash(keep, now, _) =>
      Sys(Disk(Cut(sys.file, keep), [], keep, false),
          map n | n in ReadAll(Cut(sys.file, keep)).queues :: Restarted(sys, a, n))
  }

  // ---------- the invariant ----------

  /** d is the file as far as one queue is concerned. */
  ghost predicate Parted(file: Disk, n: string, d: Disk) {
    && Part(file.log, n) == d.log && Part(file.extra, n) == d.extra
    && file.latched == d.latched
    && file.synced <= |file.log| && |Part(file.log[..file.synced], n)| == d.synced
  }

  /** The file's records of one queue are the log of its run. */
  ghost predicate Linked(file: Disk, n: string, l: Life) {
    Alive(l) && l.cfg.name == n && l.state.mem.cfg == l.cfg && Parted(file, n, l.state.disk)
  }

  /** A record of a queue that exists, or the epoch. */
  predicate Owned(rec: Record, names: set<string>) {
    rec.queue in names || (rec.op == OpEpoch && rec.queue == "")
  }

  /** The create record of a queue whose creation was not acknowledged. */
  predicate Unborn(rec: Record, names: set<string>) {
    && rec.config.Some? && rec.queue == rec.config.value.name && rec.queue !in names && rec.queue != ""
    && rec.config.value.Normalized() == rec.config.value
    && rec == CreateRecord(rec.config.value, 0)
  }

  ghost predicate Good(sys: Sys) {
    && "" !in sys.queues && Tidy(sys.file)
    && (forall n :: n in sys.queues ==> Linked(sys.file, n, sys.queues[n]))
    && (forall rec :: rec in sys.file.log ==> Owned(rec, sys.queues.Keys))
    && (forall rec :: rec in sys.file.extra ==> rec.queue in sys.queues || Unborn(rec, sys.queues.Keys))
  }

  // ---------- one queue's step, seen in the file ----------

  /** A step writes only records that name its queue, and moves its part of the
      file by them. */
  lemma DiskAfter(s: State, e: Event)
    requires Enabled(s, e) && Local(e)
    ensures var t := Step(s, e).disk;
            && t.log == s.disk.log + Logs(s, e)
            && (forall i :: 0 <= i < |Logs(s, e)| ==> Logs(s, e)[i].queue == s.mem.cfg.name)
            && match Fate(e)
               case Some(Ok) => |Logs(s, e)| == 1 && t == Disk(t.log, s.disk.extra, |t.log|, s.disk.latched)
               case Some(NotSynced) =>
                 && Logs(s, e) == [] && t == s.disk.(extra := t.extra, latched := true)
                 && |t.extra| == 1 && t.extra[0].queue == s.mem.cfg.name
               case _ => t == s.disk.(log := t.log)
  {
    LogGrows(s, e);
    hide Place, Leases, EndLease, Replayed, IsDead, Lists;
  }

  lemma AliveFull(l: Life)
    requires Alive(l)
    ensures Full(l.state)
  {
    hide Full, Legal, Final;
    FreshFull(l.cfg, l.start);
    FullRun(Fresh(l.cfg, l.start), l.run);
  }

  lemma LogsParted(file: Disk, n: string, d: Disk, logs: seq<Record>, who: string)
    requires Parted(file, n, d) && forall i :: 0 <= i < |logs| ==> logs[i].queue == who
    ensures Parted(file.(log := file.log + logs), n, d.(log := d.log + if who == n then logs else []))
  {
    PartConcat(file.log, logs, n);
    PartOfOwn(logs, who, n);
    assert (file.log + logs)[..file.synced] == file.log[..file.synced];
  }

  lemma SyncParted(file: Disk, n: string, d: Disk)
    requires Parted(file, n, d)
    ensures Parted(file.(synced := |file.log|), n, d.(synced := |d.log|))
  {
    assert file.log[..|file.log|] == file.log;
  }

  lemma LatchParted(file: Disk, n: string, d: Disk, extra: seq<Record>, who: string)
    requires Parted(file, n, d) && forall i :: 0 <= i < |extra| ==> extra[i].queue == who
    ensures Parted(file.(extra := extra, latched := true), n,
                   d.(extra := if who == n then extra else [], latched := true))
  {
    PartOfOwn(extra, who, n);
  }

  /** What a step's append is to any queue's part of the file. */
  lemma StepParted(file: Disk, l: Life, e: Event, n: string, d: Disk)
    requires Enabled(l.state, e) && Local(e) && Parted(file, n, d)
    ensures var who, t := l.state.mem.cfg.name, Step(l.state, e).disk;
            var d' := d.(log := d.log + if who == n then Logs(l.state, e) else []);
            Parted(FileAfter(file, l, e), n,
                   match Fate(e)
                   case Some(Ok) => d'.(synced := |d'.log|)
                   case Some(NotSynced) => d'.(extra := if who == n then t.extra else [], latched := true)
                   case _ => d')
  {
    hide Enabled, Step, Logs, Parted;
    var who, logs := l.state.mem.cfg.name, Logs(l.state, e);
    DiskAfter(l.state, e);
    LogsParted(file, n, d, logs, who);
    var file', d' := file.(log := file.log + logs), d.(log := d.log + if who == n then logs else []);
    match Fate(e)
    case Some(Ok) => SyncParted(file', n, d');
    case Some(NotSynced) => LatchParted(file', n, d', Step(l.state, e).disk.extra, who);
    case _ =>
  }

  /** The queue that moves stays linked. */
  lemma MoverLinked(file: Disk, n: string, l: Life, e: Event)
    requires Linked(file, n, l) && Enabled(l.state, e) && Local(e)
    ensures Linked(FileAfter(file, l, e), n, Lived(l, e))
  {
    hide Alive, Enabled, Step, Logs, Parted, FileAfter;
    AliveStays(l, e);
    AliveFull(l);
    ConfigStays(l.state, e);
    DiskAfter(l.state, e);
    StepParted(file, l, e, n, l.state.disk);
  }

  /** Its neighbours stay linked. */
  lemma NeighbourLinked(file: Disk, n: string, l: Life, mover: Life, e: Event)
    requires Linked(file, n, l) && Enabled(mover.state, e) && Local(e) && n != mover.state.mem.cfg.name
    requires Tidy(file) && (Fate(e) == Some(Ok) || Fate(e) == Some(NotSynced) ==> !file.latched)
    ensures Linked(FileAfter(file, mover, e), n, Seen(l, Fate(e)))
  {
    hide Alive, Logs, FileAfter, Replayed, IsDead, Lists;
    StepParted(file, mover, e, n, l.state.disk);
    assert l.state.disk.log + [] == l.state.disk.log;
    if Fate(e) == Some(Ok) {
      AliveStays(l, OtherSync);
    } else if Fate(e) == Some(NotSynced) {
      AliveStays(l, OtherLatch);
    }
  }

  // ---------- every step keeps the invariant ----------

  lemma OnStays(sys: Sys, n: string, e: Event)
    requires Good(sys) && Can(sys, On(n, e))
    ensures Good(Next(sys, On(n, e)))
  {
    hide Linked, Owned, Enabled, Step, Logs, Unborn;
    var mover, sys' := sys.queues[n], Next(sys, On(n, e));
    NamedBy(sys.file, n, mover);
    if Fate(e) == Some(Ok) || Fate(e) == Some(NotSynced) {
      FateAllowed(mover.state, e);
    }
    DiskAfter(mover.state, e);
    MoverLinked(sys.file, n, mover, e);
    forall k | k in sys.queues && k != n
      ensures Linked(sys'.file, k, sys'.queues[k])
    {
      NeighbourLinked(sys.file, k, sys.queues[k], mover, e);
    }
    assert sys'.queues.Keys == sys.queues.Keys;
    forall rec | rec in sys'.file.log
      ensures Owned(rec, sys'.queues.Keys)
    {
      if rec !in sys.file.log {
        OwnedBy(rec, sys'.queues.Keys);
      }
    }
  }

  lemma OwnedBy(rec: Record, names: set<string>)
    requires rec.queue in names
    ensures Owned(rec, names)
  {
  }

  lemma NamedBy(file: Disk, n: string, l: Life)
    requires Linked(file, n, l)
    ensures l.state.mem.cfg.name == n && l.state.disk.latched == file.latched
  {
  }

  /** A latched log fails every append before it writes. */
  lemma FateAllowed(s: State, e: Event)
    requires Enabled(s, e) && (Fate(e) == Some(Ok) || Fate(e) == Some(NotSynced))
    ensures !s.disk.latched
  {
    hide Leases, Replayed, IsDead, Lists;
  }

  /** An fsync, or its failure, is seen by every queue. */
  lemma SyncSeen(file: Disk, n: string, l: Life)
    requires Linked(file, n, l) && !file.latched
    ensures Linked(file.(synced := |file.log|), n, Seen(l, Some(Ok)))
  {
    hide Alive;
    AliveStays(l, OtherSync);
    SyncParted(file, n, l.state.disk);
  }

  lemma LatchSeen(file: Disk, n: string, l: Life)
    requires Linked(file, n, l)
    ensures Linked(file.(latched := true), n, Seen(l, Some(NotSynced)))
  {
    hide Alive;
    AliveStays(l, OtherLatch);
  }

  /** One more record, of another queue. */
  lemma Unmoved(file: Disk, n: string, l: Life, rec: Record)
    requires Linked(file, n, l) && rec.queue != n
    ensures Linked(file.(log := file.log + [rec]), n, l)
    ensures file.extra == [] ==> Linked(file.(extra := [rec]), n, l)
  {
    LogsParted(file, n, l.state.disk, [rec], rec.queue);
    assert l.state.disk.log + [] == l.state.disk.log;
    PartOfOwn([rec], rec.queue, n);
    hide Alive;
  }

  lemma BornLinked(file: Disk, cfg: Config, now: Time)
    requires cfg.Normalized() == cfg && Part(file.log, cfg.name) == [CreateRecord(cfg, 0)]
    requires file.synced == |file.log| && file.extra == [] && !file.latched
    ensures Linked(file, cfg.name, Born(cfg, now))
  {
    assert file.log[..|file.log|] == file.log;
  }

  /** A name without a queue has no records. */
  lemma {:induction false} NoPart(log: seq<Record>, names: set<string>, n: string)
    requires n !in names && n != "" && forall rec :: rec in log ==> Owned(rec, names)
    ensures Part(log, n) == []
  {
    if log != [] {
      assert log[|log| - 1] in log && forall rec :: rec in log[..|log| - 1] ==> rec in log;
      NoPart(log[..|log| - 1], names, n);
    }
  }

  lemma CreateStays(sys: Sys, a: Action)
    requires Good(sys) && a.Create? && Can(sys, a)
    ensures Good(Next(sys, a))
  {
    hide Linked, Part;
    var c, sys' := a.cfg.Normalized(), Next(sys, a);
    var rec := CreateRecord(c, 0);
    forall k | k in sys.queues
      ensures Linked(sys'.file, k, Seen(sys.queues[k], Some(a.o)))
    {
      CreateSeen(sys.file, k, sys.queues[k], rec, a.o);
    }
    if a.o == Ok {
      PartConcat(sys.file.log, [rec], c.name);
      PartOfOwn([rec], c.name, c.name);
      NoPart(sys.file.log, sys.queues.Keys, c.name);
      BornLinked(sys'.file, c, a.now);
    }
  }

  lemma CreateSeen(file: Disk, n: string, l: Life, rec: Record, o: Outcome)
    requires Linked(file, n, l) && rec.queue != n && Possible(file, o) && Tidy(file)
    ensures Linked(file.Durable(rec, o), n, Seen(l, Some(o)))
  {
    NamedBy(file, n, l);
    hide Linked;
    match o
    case Ok =>
      Unmoved(file, n, l, rec);
      SyncSeen(file.(log := file.log + [rec]), n, l);
    case NotWritten =>
    case NotSynced =>
      Unmoved(file, n, l, rec);
      LatchSeen(file.(extra := [rec]), n, l);
  }

  lemma SyncStays(sys: Sys)
    requires Good(sys) && Can(sys, Sync)
    ensures Good(Next(sys, Sync))
  {
    hide Linked;
    forall k | k in sys.queues
      ensures Linked(Next(sys, Sync).file, k, Seen(sys.queues[k], Some(Ok)))
    {
      NamedBy(sys.file, k, sys.queues[k]);
      SyncSeen(sys.file, k, sys.queues[k]);
    }
  }

  lemma LatchStays(sys: Sys)
    requires Good(sys)
    ensures Good(Next(sys, Latch))
  {
    hide Linked;
    forall k | k in sys.queues
      ensures Linked(Next(sys, Latch).file, k, Seen(sys.queues[k], Some(NotSynced)))
    {
      LatchSeen(sys.file, k, sys.queues[k]);
    }
  }

  // ---------- compaction ----------

  lemma {:induction false} EmitNamed(name: string, order: seq<Msg>)
    ensures forall rec :: rec in Emit(name, order) ==> rec.queue == name
    ensures forall rec :: rec in EmitDead(name, order) ==> rec.queue == name
  {
    if order != [] {
      EmitNamed(name, order[..|order| - 1]);
    }
  }

  lemma PrintNamed(mem: Memory, order: seq<Msg>, n: string)
    ensures forall rec :: rec in Print(mem, order) ==> rec.queue == mem.cfg.name
    ensures Part(Print(mem, order), n) == if n == mem.cfg.name then Print(mem, order) else []
  {
    EmitNamed(mem.cfg.name, order);
    EmitNamed(mem.cfg.name, mem.dlq);
    PartOfOwn(Print(mem, order), mem.cfg.name, n);
  }

  ghost predicate Printable(queues: map<string, Life>, names: seq<string>, orders: map<string, seq<Msg>>) {
    forall k :: k in names ==> k in queues && k in orders && queues[k].state.mem.cfg.name == k
  }

  /** The compacted file holds one printout per queue, in its own records. */
  lemma {:induction false} PartOfPrintout(queues: map<string, Life>, names: seq<string>,
                                          orders: map<string, seq<Msg>>, n: string)
    requires Printable(queues, names, orders)
    requires forall i, j :: 0 <= i < j < |names| ==> names[i] != names[j]
    ensures Part(Printout(queues, names, orders), n) ==
            if n in names then Print(queues[n].state.mem, orders[n]) else []
  {
    if names != [] {
      hide Print, Part, Printable;
      var front, k := names[..|names| - 1], names[|names| - 1];
      FrontPrintable(queues, names, orders);
      PartOfPrintout(queues, front, orders, n);
      PrintNamed(queues[k].state.mem, orders[k], n);
      PartConcat(Printout(queues, front, orders), Print(queues[k].state.mem, orders[k]), n);
    }
  }

  lemma FrontPrintable(queues: map<string, Life>, names: seq<string>, orders: map<string, seq<Msg>>)
    requires Printable(queues, names, orders) && names != []
    requires forall i, j :: 0 <= i < j < |names| ==> names[i] != names[j]
    ensures var front, k := names[..|names| - 1], names[|names| - 1];
            && Printable(queues, front, orders) && names == front + [k] && k !in front
            && k in queues && k in orders && queues[k].state.mem.cfg.name == k
            && forall n :: n in names ==> n in queues && n in orders
  {
  }

  lemma {:induction false} PrintoutOwned(queues: map<string, Life>, names: seq<string>,
                                         orders: map<string, seq<Msg>>, rec: Record)
    requires Printable(queues, names, orders) && rec in Printout(queues, names, orders)
    ensures rec.queue in names
  {
    hide Print;
    var front, k := names[..|names| - 1], names[|names| - 1];
    assert names == front + [k];
    if rec in Printout(queues, front, orders) {
      PrintoutOwned(queues, front, orders, rec);
    } else {
      PrintNamed(queues[k].state.mem, orders[k], k);
    }
  }

  lemma AllPrintable(sys: Sys, a: Action)
    requires Good(sys) && a.CompactAll? && Can(sys, a)
    ensures Printable(sys.queues, a.names, a.orders)
  {
    hide Linked, Enabled;
    forall k | k in sys.queues
      ensures sys.queues[k].state.mem.cfg.name == k
    {
      NamedBy(sys.file, k, sys.queues[k]);
    }
  }

  lemma PartOfCompacted(sys: Sys, a: Action, n: string)
    requires Good(sys) && a.CompactAll? && Can(sys, a) && n in sys.queues
    ensures Part(Next(sys, a).file.log, n) == Print(sys.queues[n].state.mem, a.orders[n])
  {
    hide Part, Print, Enabled, Linked;
    AllPrintable(sys, a);
    PartConcat([EpochRecord(a.epoch)], Printout(sys.queues, a.names, a.orders), n);
    PartOfOwn([EpochRecord(a.epoch)], "", n);
    PartOfPrintout(sys.queues, a.names, a.orders, n);
  }

  lemma CompactLinked(file: Disk, n: string, l: Life, order: seq<Msg>, log: seq<Record>)
    requires Linked(file, n, l) && Enabled(l.state, Model.Compact(order)) && Part(log, n) == Print(l.state.mem, order)
    ensures Linked(Disk(log, [], |log|, false), n, Lived(l, Model.Compact(order)))
  {
    hide Alive, Lists, LiveRecords;
    AliveStays(l, Model.Compact(order));
    assert log[..|log|] == log;
  }

  lemma CompactStays(sys: Sys, a: Action)
    requires Good(sys) && a.CompactAll? && Can(sys, a)
    ensures Good(Next(sys, a))
  {
    hide Linked, Enabled, Step, Printout, Part;
    var sys' := Next(sys, a);
    forall k | k in sys.queues
      ensures Linked(sys'.file, k, sys'.queues[k])
    {
      PartOfCompacted(sys, a, k);
      CompactLinked(sys.file, k, sys.queues[k], a.orders[k], sys'.file.log);
    }
    AllPrintable(sys, a);
    forall rec | rec in Printout(sys.queues, a.names, a.orders)
      ensures rec.queue in sys.queues
    {
      PrintoutOwned(sys.queues, a.names, a.orders, rec);
    }
  }

  // ---------- crashes ----------

  /** What a crash leaves of one queue's records is a prefix of them that keeps
      their synced part. */
  lemma CutPart(file: Disk, n: string, d: Disk, keep: nat)
    requires Parted(file, n, d) && file.synced <= keep <= |file.Written()|
    ensures var part := Part(Cut(file, keep), n);
            d.synced <= |part| <= |d.Written()| && d.Written()[..|part|] == part
  {
    var cut, all := Cut(file, keep), file.Written();
    PartConcat(file.log, file.extra, n);
    assert all == cut + all[keep..];
    PartConcat(cut, all[keep..], n);
    assert cut == file.log[..file.synced] + cut[file.synced..];
    PartConcat(file.log[..file.synced], cut[file.synced..], n);
  }

  lemma {:induction false} EpochsReadEmpty(log: seq<Record>)
    requires forall rec :: rec in log ==> rec.op == OpEpoch
    ensures Replayed(log) == EMPTY
  {
    if log != [] {
      assert log[|log| - 1] in log && forall rec :: rec in log[..|log| - 1] ==> rec in log;
      EpochsReadEmpty(log[..|log| - 1]);
    }
  }

  /** The records of the empty name are epochs. */
  lemma {:induction false} NamelessPart(log: seq<Record>, names: set<string>)
    requires "" !in names && forall rec :: rec in log ==> Owned(rec, names)
    ensures forall rec :: rec in Part(log, "") ==> rec.op == OpEpoch
  {
    if log != [] {
      assert log[|log| - 1] in log && forall rec :: rec in log[..|log| - 1] ==> rec in log;
      NamelessPart(log[..|log| - 1], names);
    }
  }

  /** A name without a queue reads as nothing, from the acknowledged records. */
  lemma StrangerReads(log: seq<Record>, names: set<string>, n: string)
    requires "" !in names && n !in names && forall rec :: rec in log ==> Owned(rec, names)
    ensures Replayed(Part(log, n)) == EMPTY && (n != "" ==> Part(log, n) == [])
  {
    if n == "" {
      NamelessPart(log, names);
      EpochsReadEmpty(Part(log, n));
    } else {
      NoPart(log, names, n);
    }
  }

  /** How a name without a queue reads after a crash: as nothing, or, if the create
      record that was never acknowledged survived, as a new queue. */
  ghost predicate Stranger(cut: seq<Record>, extra: seq<Record>, n: string) {
    || Replayed(Part(cut, n)) == EMPTY
    || (|extra| == 1 && extra[0].queue == n && extra[0].config.Some? && cut != [] && cut[|cut| - 1] == extra[0]
        && Part(cut, n) == [CreateRecord(extra[0].config.value, 0)]
        && Replayed(Part(cut, n)) == Staging(extra[0].config, map[], {}, 0)
        && extra[0].config.value.name == n && extra[0].config.value.Normalized() == extra[0].config.value)
  }

  lemma CrashedStranger(sys: Sys, keep: nat, n: string)
    requires Good(sys) && sys.file.synced <= keep <= |sys.file.Written()| && n !in sys.queues
    ensures Stranger(Cut(sys.file, keep), sys.file.extra, n)
    ensures n == "" ==> Replayed(Part(Cut(sys.file, keep), n)) == EMPTY
  {
    hide Linked, Part, Replayed, Owned, Unborn;
    var cut, log, extra, names := Cut(sys.file, keep), sys.file.log, sys.file.extra, sys.queues.Keys;
    if keep <= |log| {
      assert cut == log[..keep] && forall rec :: rec in cut ==> rec in log;
      StrangerReads(cut, names, n);
    } else {
      assert cut == log + extra && extra == [extra[0]] && extra[0] in extra;
      StrangerReads(log, names, n);
      ExtraStranger(log, extra[0], names, n);
    }
  }

  lemma ExtraStranger(log: seq<Record>, rec: Record, names: set<string>, n: string)
    requires n !in names && Replayed(Part(log, n)) == EMPTY && (n != "" ==> Part(log, n) == [])
    requires rec.queue in names || Unborn(rec, names)
    ensures Stranger(log + [rec], [rec], n)
    ensures n == "" ==> Replayed(Part(log + [rec], n)) == EMPTY
  {
    hide Part, Replayed;
    PartConcat(log, [rec], n);
    PartOfOwn([rec], rec.queue, n);
    if rec.queue == n {
      assert Part(log + [rec], n) == [rec];
      CreateReads(rec.config.value, 0);
    } else {
      assert Part(log, n) + [] == Part(log, n);
    }
  }

  /** Each queue survives a crash under its own config. */
  lemma CrashedQueue(sys: Sys, keep: nat, n: string)
    requires Good(sys) && sys.file.synced <= keep <= |sys.file.Written()| && n in sys.queues
    ensures var r, l := Replayed(Part(Cut(sys.file, keep), n)), sys.queues[n];
            r.cfg == Some(l.cfg) && Sound(r, l.state.clock)
  {
    hide Full, Sound, Alive;
    var l := sys.queues[n];
    CutPart(sys.file, n, l.state.disk, keep);
    AliveFull(l);
    PrefixSound(l.state, |Part(Cut(sys.file, keep), n)|);
  }

  /** Whatever a crash leaves of the file, recovery does not refuse it. */
  lemma NeverRefused(sys: Sys, keep: nat)
    requires Good(sys) && sys.file.synced <= keep <= |sys.file.Written()|
    ensures !Refused(ReadAll(Cut(sys.file, keep)))
  {
    hide Good, Replayed, ReadAll, Sound;
    var t := ReadAll(Cut(sys.file, keep));
    forall n | n in t.pending && n !in t.queues
      ensures t.pending[n].live == map[] && t.pending[n].dlq == {}
    {
      QueuesDoNotInterfere(Cut(sys.file, keep), n);
      if n in sys.queues {
        CrashedQueue(sys, keep, n);
      } else {
        CrashedStranger(sys, keep, n);
      }
    }
  }

  lemma RestartLinked(file: Disk, n: string, l: Life, keep: nat, now: Time, dead: seq<Msg>)
    requires Linked(file, n, l) && file.synced <= keep <= |file.Written()|
    requires Enabled(l.state, RestartOf(file, n, keep, now, dead))
    ensures Linked(Disk(Cut(file, keep), [], keep, false), n, Lived(l, RestartOf(file, n, keep, now, dead)))
  {
    hide Alive, Full, IsDead, Replayed;
    var e := RestartOf(file, n, keep, now, dead);
    CutPart(file, n, l.state.disk, keep);
    AliveStays(l, e);
    AliveFull(l);
    ConfigStays(l.state, e);
    assert Cut(file, keep)[..keep] == Cut(file, keep);
  }

  /** The queues that a crash leaves: all that were there, and at most the one
      whose creation was not acknowledged. */
  lemma CrashLeaves(sys: Sys, keep: nat, n: string)
    requires Good(sys) && sys.file.synced <= keep <= |sys.file.Written()|
    ensures var t := ReadAll(Cut(sys.file, keep));
            && (n in sys.queues ==> n in t.queues && t.queues[n] == sys.queues[n].cfg)
            && (n in t.queues && n !in sys.queues ==>
                  && n != "" && t.queues[n].name == n && t.queues[n].Normalized() == t.queues[n]
                  && Part(Cut(sys.file, keep), n) == [CreateRecord(t.queues[n], 0)])
            && (n in t.queues <==> Replayed(Part(Cut(sys.file, keep), n)).cfg.Some?)
  {
    hide Good, Replayed, ReadAll, Sound, Part;
    QueuesDoNotInterfere(Cut(sys.file, keep), n);
    if n in sys.queues {
      CrashedQueue(sys, keep, n);
    } else {
      CrashedStranger(sys, keep, n);
    }
  }

  lemma RevivedLinked(file: Disk, cfg: Config, now: Time)
    requires cfg.Normalized() == cfg && Part(file.log, cfg.name) == [CreateRecord(cfg, 0)]
    requires file.synced == |file.log| && file.extra == [] && !file.latched
    ensures Linked(file, cfg.name, Reborn(cfg, now))
  {
    hide Linked, Enabled, Step, Part;
    BornLinked(file, cfg, now);
    CanRevive(cfg, now);
    assert Cut(file, |file.log|) == file.log;
    RestartLinked(file, cfg.name, Born(cfg, now), |file.log|, now, []);
  }

  lemma RestartedLinked(sys: Sys, a: Action, n: string)
    requires Good(sys) && a.Crash? && Can(sys, a) && n in ReadAll(Cut(sys.file, a.keep)).queues
    ensures Linked(Disk(Cut(sys.file, a.keep), [], a.keep, false), n, Restarted(sys, a, n)) && n != ""
  {
    hide Linked, ReadAll, Replayed, Enabled, Part, Refused;
    CrashLeaves(sys, a.keep, n);
    if n in sys.queues {
      RestartLinked(sys.file, n, sys.queues[n], a.keep, a.now, a.deads[n]);
    } else {
      RevivedLinked(Disk(Cut(sys.file, a.keep), [], a.keep, false), ReadAll(Cut(sys.file, a.keep)).queues[n], a.now);
    }
  }

  lemma {:induction false} CreatedInTables(log: seq<Record>, rec: Record)
    requires rec in log && rec.op == OpCreateQueue && rec.config.Some?
    ensures rec.queue in ReadAll(log).queues
  {
    if rec in log[..|log| - 1] {
      CreatedInTables(log[..|log| - 1], rec);
    }
  }

  /** Every record a crash leaves has its queue. */
  lemma CrashedOwned(sys: Sys, keep: nat, rec: Record)
    requires Good(sys) && sys.file.synced <= keep <= |sys.file.Written()| && rec in Cut(sys.file, keep)
    ensures Owned(rec, ReadAll(Cut(sys.file, keep)).queues.Keys)
  {
    hide Linked, ReadAll, Replayed, Part;
    if rec in sys.file.log || rec.queue in sys.queues {
      CrashLeaves(sys, keep, rec.queue);
    } else {
      assert rec in sys.file.extra;
      CreatedInTables(Cut(sys.file, keep), rec);
    }
  }

  lemma CrashStays(sys: Sys, a: Action)
    requires Good(sys) && a.Crash? && Can(sys, a)
    ensures Good(Next(sys, a))
  {
    var sys' := Next(sys, a);
    forall n | n in sys'.queues
      ensures Linked(sys'.file, n, sys'.queues[n]) && n != ""
    {
      RestartedLinked(sys, a, n);
    }
    forall rec | rec in sys'.file.log
      ensures Owned(rec, sys'.queues.Keys)
    {
      CrashedOwned(sys, a.keep, rec);
    }
    hide Linked, Owned, Enabled, ReadAll, Restarted;
  }

  lemma GoodStays(sys: Sys, a: Action)
    requires Good(sys) && Can(sys, a)
    ensures Good(Next(sys, a))
  {
    hide Good, Can, Next;
    match a
    case Create(_, _, _) => CreateStays(sys, a);
    case On(n, e) => OnStays(sys, n, e);
    case Sync => SyncStays(sys);
    case Latch => LatchStays(sys);
    case CompactAll(_, _, _) => CompactStays(sys, a);
    case Crash(_, _, _) => CrashStays(sys, a);
  }

  // ---------- runs ----------

  /** No file yet. */
  const NEW: Sys := Sys(Disk([], [], 0, false), map[])

  ghost predicate Runs(run: seq<Action>)
    decreases |run|, 0
  {
    run == [] || (Runs(run[..|run| - 1]) && Can(After(run[..|run| - 1]), run[|run| - 1]))
  }

  ghost function After(run: seq<Action>): Sys
    requires Runs(run)
    decreases |run|, 1
  {
    if run == [] then NEW else Next(After(run[..|run| - 1]), run[|run| - 1])
  }

  /** Over every run of the whole system, the file holds each queue's own log and
      nothing else. */
  lemma {:induction false} SystemIsGood(run: seq<Action>)
    requires Runs(run)
    ensures Good(After(run))
  {
    if run != [] {
      hide Good, Can, Next;
      SystemIsGood(run[..|run| - 1]);
      GoodStays(After(run[..|run| - 1]), run[|run| - 1]);
    }
  }

  // ---------- what the clients of one queue were told ----------

  /** IDs whose Enqueue to queue n succeeded. */
  ghost function AcceptedBy(run: seq<Action>, n: string): set<Id> {
    if run == [] then {} else
      var a := run[|run| - 1];
      AcceptedBy(run[..|run| - 1], n) +
      if a.On? && a.name == n && a.e.Enqueue? && a.e.o == Ok then {a.e.id} else {}
  }

  /** IDs whose Ack to queue n succeeded; or, unless sure, may have reached the file. */
  ghost function AckedBy(run: seq<Action>, n: string, sure: bool): set<Id>
    requires Runs(run)
  {
    if run == [] then {} else
      var front, a := run[..|run| - 1], run[|run| - 1];
      AckedBy(front, n, sure) +
      if a.On? && a.name == n && a.e.Ack? && (a.e.o == Ok || (!sure && a.e.o == NotSynced)) then
        {After(front).queues[n].state.mem.leases[a.e.receipt]}
      else {}
  }

  /** What a queue's own run says its clients were told. */
  ghost predicate Tells(l: Life, accepted: set<Id>, acked: set<Id>, written: set<Id>) {
    && Alive(l) && Accepted(l.run) == accepted && Acked(Fresh(l.cfg, l.start), l.run) == acked
    && AckWritten(Fresh(l.cfg, l.start), l.run) == written
  }

  lemma LivedTells(l: Life, e: Event, accepted: set<Id>, acked: set<Id>, written: set<Id>)
    requires Tells(l, accepted, acked, written) && Enabled(l.state, e)
    ensures Tells(Lived(l, e),
                  accepted + (if e.Enqueue? && e.o == Ok then {e.id} else {}),
                  acked + (if e.Ack? && e.o == Ok then {l.state.mem.leases[e.receipt]} else {}),
                  written + (if e.Ack? && e.o != NotWritten then {l.state.mem.leases[e.receipt]} else {}))
  {
    hide Legal, Final, Accepted, Acked, AckWritten, Step;
    AliveStays(l, e);
    ToldOneMore(Fresh(l.cfg, l.start), l.run, e);
  }

  lemma QuietTells(l: Life, e: Event, accepted: set<Id>, acked: set<Id>, written: set<Id>)
    requires Tells(l, accepted, acked, written) && Enabled(l.state, e) && !e.Enqueue? && !e.Ack?
    ensures Tells(Lived(l, e), accepted, acked, written)
  {
    hide Enabled, Step, Tells;
    LivedTells(l, e, accepted, acked, written);
    assert accepted + {} == accepted && acked + {} == acked && written + {} == written;
  }

  lemma SeenTells(l: Life, fate: Option<Outcome>, accepted: set<Id>, acked: set<Id>, written: set<Id>)
    requires Tells(l, accepted, acked, written)
    ensures Tells(Seen(l, fate), accepted, acked, written)
  {
    hide Tells;
    match fate
    case Some(Ok) => if !l.state.disk.latched { QuietTells(l, OtherSync, accepted, acked, written); }
    case Some(NotSynced) => QuietTells(l, OtherLatch, accepted, acked, written);
    case _ =>
  }

  lemma BornTells(cfg: Config, now: Time)
    requires cfg.Normalized() == cfg
    ensures Tells(Born(cfg, now), {}, {}, {})
  {
  }

  /** What the action adds to the three sets of queue n. */
  ghost predicate Adds(sys: Sys, a: Action, n: string, x: (set<Id>, set<Id>, set<Id>), y: (set<Id>, set<Id>, set<Id>))
    requires Can(sys, a)
  {
    if a.On? && a.name == n then Told(sys.queues[n].state, a.e, x, y) else x == y
  }

  ghost predicate TellsOf(sys: Sys, n: string, x: (set<Id>, set<Id>, set<Id>)) {
    if n in sys.queues then Tells(sys.queues[n], x.0, x.1, x.2) else x == ({}, {}, {})
  }

  lemma OnTells(sys: Sys, a: Action, n: string, x: (set<Id>, set<Id>, set<Id>), y: (set<Id>, set<Id>, set<Id>))
    requires Can(sys, a) && a.On? && TellsOf(sys, n, x) && Adds(sys, a, n, x, y)
    ensures TellsOf(Next(sys, a), n, y)
  {
    hide Tells, Enabled, Step, Seen, FileAfter;
    if a.name == n {
      LivedTells(sys.queues[n], a.e, x.0, x.1, x.2);
    } else if n in sys.queues {
      SeenTells(sys.queues[n], Fate(a.e), x.0, x.1, x.2);
    }
  }

  lemma CrashTells(sys: Sys, a: Action, n: string, x: (set<Id>, set<Id>, set<Id>))
    requires Good(sys) && Can(sys, a) && a.Crash? && TellsOf(sys, n, x)
    ensures TellsOf(Next(sys, a), n, x)
  {
    hide Good, Tells, Enabled, ReadAll, Replayed, Part, Refused, Step;
    CrashLeaves(sys, a.keep, n);
    if n in sys.queues {
      QuietTells(sys.queues[n], RestartOf(sys.file, n, a.keep, a.now, a.deads[n]), x.0, x.1, x.2);
    } else if n in Next(sys, a).queues {
      var cfg := ReadAll(Cut(sys.file, a.keep)).queues[n];
      BornTells(cfg, a.now);
      CanRevive(cfg, a.now);
      QuietTells(Born(cfg, a.now), Restart(1, a.now, []), {}, {}, {});
    }
  }

  lemma NormalizedTwice(cfg: Config)
    ensures cfg.Normalized().Normalized() == cfg.Normalized()
  {
  }

  lemma OtherTells(sys: Sys, a: Action, n: string, x: (set<Id>, set<Id>, set<Id>))
    requires Can(sys, a) && !a.On? && !a.Crash? && TellsOf(sys, n, x)
    ensures TellsOf(Next(sys, a), n, x)
  {
    hide Tells, Enabled, Seen, Step, Admissible, Printout;
    match a
    case Create(cfg, now, o) =>
      if n in sys.queues {
        SeenTells(sys.queues[n], Some(o), x.0, x.1, x.2);
      } else {
        NormalizedTwice(cfg);
        BornTells(cfg.Normalized(), now);
      }
    case Sync => if n in sys.queues { SeenTells(sys.queues[n], Some(Ok), x.0, x.1, x.2); }
    case Latch => if n in sys.queues { SeenTells(sys.queues[n], Some(NotSynced), x.0, x.1, x.2); }
    case CompactAll(_, _, orders) =>
      if n in sys.queues { QuietTells(sys.queues[n], Model.Compact(orders[n]), x.0, x.1, x.2); }
  }

  /** A queue's own run says what the system's run says its clients were told. */
  lemma {:induction false} RunTells(run: seq<Action>, n: string)
    requires Runs(run)
    ensures TellsOf(After(run), n, (AcceptedBy(run, n), AckedBy(run, n, true), AckedBy(run, n, false)))
  {
    if run != [] {
      hide Good, Can, Next, TellsOf;
      var front, a := run[..|run| - 1], run[|run| - 1];
      var sys := After(front);
      var x := (AcceptedBy(front, n), AckedBy(front, n, true), AckedBy(front, n, false));
      var y := (AcceptedBy(run, n), AckedBy(run, n, true), AckedBy(run, n, false));
      RunTells(front, n);
      SystemIsGood(front);
      RunAdds(run, n);
      if a.On? {
        OnTells(sys, a, n, x, y);
      } else if a.Crash? {
        CrashTells(sys, a, n, x);
      } else {
        OtherTells(sys, a, n, x);
      }
    }
  }

  lemma RunAdds(run: seq<Action>, n: string)
    requires Runs(run) && run != []
    ensures var front := run[..|run| - 1];
            Adds(After(front), run[|run| - 1], n,
                 (AcceptedBy(front, n), AckedBy(front, n, true), AckedBy(front, n, false)),
                 (AcceptedBy(run, n), AckedBy(run, n, true), AckedBy(run, n, false)))
            && (!run[|run| - 1].On? ==>
                  AcceptedBy(front, n) == AcceptedBy(run, n) && AckedBy(front, n, true) == AckedBy(run, n, true)
                  && AckedBy(front, n, false) == AckedBy(run, n, false))
  {
    hide Next;
    var front, a := run[..|run| - 1], run[|run| - 1];
    if !(a.On? && a.name == n) {
      assert AcceptedBy(run, n) == AcceptedBy(front, n);
      assert AckedBy(run, n, true) == AckedBy(front, n, true);
      assert AckedBy(run, n, false) == AckedBy(front, n, false);
    }
  }

  // ---------- theorems ----------

  /** A crash at any point of any run of the whole system, keeping any prefix of
      the shared file that covers the last fsync: recovery does not refuse it, a
      restart can follow, no queue is forgotten, and each is rebuilt under its own
      config without any message its consumers were told is gone. A message that
      its producer was told is durable and whose ack was never written is there if
      and only if no compaction erased it after a failed OpNack append. */
  lemma SystemKeepsPromises(run: seq<Action>, keep: nat, now: Time) returns (deads: map<string, seq<Msg>>)
    requires Runs(run) && After(run).file.synced <= keep <= |After(run).file.Written()|
    requires forall n :: n in After(run).queues ==> After(run).queues[n].state.clock <= now
    ensures Can(After(run), Crash(keep, now, deads))
    ensures var t := ReadAll(Cut(After(run).file, keep));
            forall n :: n in After(run).queues ==>
              && View(t, n).cfg == Some(After(run).queues[n].cfg)
              && (forall id :: id in AcceptedBy(run, n) - AckedBy(run, n, false) ==>
                    (id in View(t, n).live <==> !ErasedFrom(After(run).queues[n], id)))
              && AckedBy(run, n, true) !! View(t, n).live.Keys
  {
    hide Good, ReadAll, Replayed, AcceptedBy, AckedBy, Enabled, Refused, Part, Cut, After, Runs, View;
    var sys := After(run);
    SystemIsGood(run);
    NeverRefused(sys, keep);
    deads := map n | n in sys.queues :: DeadOf(sys.file, n, keep);
    forall n | n in sys.queues
      ensures Enabled(sys.queues[n].state, RestartOf(sys.file, n, keep, now, deads[n]))
      ensures var r := View(ReadAll(Cut(sys.file, keep)), n);
              && r.cfg == Some(sys.queues[n].cfg)
              && (forall id :: id in AcceptedBy(run, n) - AckedBy(run, n, false) ==>
                    (id in r.live <==> !ErasedFrom(sys.queues[n], id)))
              && AckedBy(run, n, true) !! r.live.Keys
    {
      QueueKeepsPromises(run, keep, n);
      QueueRestarts(sys, keep, now, n);
    }
  }

  /** A compaction erased the message after a failed OpNack append. */
  ghost predicate ErasedFrom(l: Life, id: Id) {
    Alive(l) && Erased(Fresh(l.cfg, l.start), l.run, id)
  }

  /** The dead letters of one queue after a crash, in sequence order. */
  ghost function DeadOf(file: Disk, n: string, keep: nat): seq<Msg>
    requires keep <= |file.Written()|
  {
    var r := Replayed(Part(Cut(file, keep), n));
    if exists dead :: IsDead(r, dead) then
      var dead :| IsDead(r, dead);
      dead
    else []
  }

  lemma QueueRestarts(sys: Sys, keep: nat, now: Time, n: string)
    requires Good(sys) && sys.file.synced <= keep <= |sys.file.Written()|
    requires n in sys.queues && sys.queues[n].state.clock <= now
    ensures Enabled(sys.queues[n].state, RestartOf(sys.file, n, keep, now, DeadOf(sys.file, n, keep)))
  {
    hide Legal, Final, IsDead, Replayed, Part, Cut;
    var l := sys.queues[n];
    CutPart(sys.file, n, l.state.disk, keep);
    var dead := RestartIsPossible(l.cfg, l.start, l.run, |Part(Cut(sys.file, keep), n)|, now);
  }

  lemma QueueKeepsPromises(run: seq<Action>, keep: nat, n: string)
    requires Runs(run) && After(run).file.synced <= keep <= |After(run).file.Written()| && n in After(run).queues
    ensures var r, l := View(ReadAll(Cut(After(run).file, keep)), n), After(run).queues[n];
            && r.cfg == Some(l.cfg)
            && (forall id :: id in AcceptedBy(run, n) - AckedBy(run, n, false) ==>
                  (id in r.live <==> !ErasedFrom(l, id)))
            && AckedBy(run, n, true) !! r.live.Keys
  {
    hide Legal, Final, ReadAll, Replayed, AcceptedBy, AckedBy, Part, Cut, After, Runs, View,
         Accepted, Acked, AckWritten, Rising, Lower, Sound;
    SystemIsGood(run);
    var sys := After(run);
    var l := sys.queues[n];
    RunTells(run, n);
    CutPart(sys.file, n, l.state.disk, keep);
    CrashKeepsPromises(l.cfg, l.start, l.run, |Part(Cut(sys.file, keep), n)|);
    QueuesDoNotInterfere(Cut(sys.file, keep), n);
  }

  /** Compacting every queue into one new file: the same queues are created in it,
      and each one that no failed append has touched means what it meant. */
  lemma SystemCompactionPreservesMeaning(run: seq<Action>, a: Action)
    requires Runs(run) && a.CompactAll? && Can(After(run), a)
    ensures var sys := After(run);
            var t, u := ReadAll(sys.file.log), ReadAll(Next(sys, a).file.log);
            && t.queues == u.queues && t.queues.Keys == sys.queues.Keys
            && forall n :: n in sys.queues && !sys.queues[n].state.book.faulty ==>
                 SameMeaning(View(t, n), View(u, n), sys.queues[n].state.clock)
  {
    hide Good, Can, Next, Runs, After, ReadAll, SameMeaning, View, Replayed, Part;
    var sys, sys' := After(run), Next(After(run), a);
    SystemIsGood(run);
    GoodStays(sys, a);
    var t, u := ReadAll(sys.file.log), ReadAll(sys'.file.log);
    forall n
      ensures n in t.queues <==> n in sys.queues
      ensures n in u.queues <==> n in sys.queues
      ensures n in sys.queues ==> t.queues[n] == u.queues[n]
    {
      TablesAre(sys, n);
      TablesAre(sys', n);
      CompactedQueue(sys, a, n);
    }
    assert t.queues.Keys == sys.queues.Keys && u.queues.Keys == sys.queues.Keys;
    assert t.queues == u.queues;
    forall n | n in sys.queues && !sys.queues[n].state.book.faulty
      ensures SameMeaning(View(ReadAll(sys.file.log), n), View(ReadAll(sys'.file.log), n), sys.queues[n].state.clock)
    {
      CompactedSame(sys, a, n);
    }
  }

  lemma CompactedQueue(sys: Sys, a: Action, n: string)
    requires Good(sys) && a.CompactAll? && Can(sys, a)
    ensures Next(sys, a).queues.Keys == sys.queues.Keys
    ensures n in sys.queues ==> Next(sys, a).queues[n].cfg == sys.queues[n].cfg
  {
    hide Good, Enabled, Step, Printout;
  }

  lemma CompactedSame(sys: Sys, a: Action, n: string)
    requires Good(sys) && a.CompactAll? && Can(sys, a) && n in sys.queues && !sys.queues[n].state.book.faulty
    ensures SameMeaning(View(ReadAll(sys.file.log), n), View(ReadAll(Next(sys, a).file.log), n),
                        sys.queues[n].state.clock)
  {
    hide ReadAll, SameMeaning, View, Replayed, Part, Full, Alive;
    var l, log' := sys.queues[n], Next(sys, a).file.log;
    AliveFull(l);
    CompactionPreservesMeaning(l.state, a.orders[n]);
    PartOfCompacted(sys, a, n);
    QueuesDoNotInterfere(sys.file.log, n);
    QueuesDoNotInterfere(log', n);
  }

  /** The acknowledged records create exactly the queues there are. */
  lemma TablesAre(sys: Sys, n: string)
    requires Good(sys)
    ensures n in ReadAll(sys.file.log).queues <==> n in sys.queues
    ensures n in sys.queues ==> ReadAll(sys.file.log).queues[n] == sys.queues[n].cfg
  {
    hide ReadAll, Replayed, Part, Full, Alive, Owned, Unborn;
    QueuesDoNotInterfere(sys.file.log, n);
    if n in sys.queues {
      assert sys.file.Written()[..|sys.file.log|] == sys.file.log;
      CrashLeaves(sys, |sys.file.log|, n);
    } else {
      StrangerReads(sys.file.log, sys.queues.Keys, n);
    }
  }

  /** A crash at any step of a compaction, be it writing aside, syncing, renaming or
      reopening. Before the rename it leaves a prefix of the old file that covers the
      last fsync, after it the whole new file. Both create the same queues, and for
      each one that no failed append has touched they mean the same, but for attempts
      of lease records that the old file lost. */
  lemma CrashDuringCompaction(run: seq<Action>, a: Action, keep: nat)
    requires Runs(run) && a.CompactAll? && Can(After(run), a)
    requires After(run).file.synced <= keep <= |After(run).file.Written()|
    ensures var sys := After(run);
            var file := Next(sys, a).file;
            var t, u := ReadAll(Cut(sys.file, keep)), ReadAll(file.log);
            && file.synced == |file.Written()| && Cut(file, file.synced) == file.log
            && t.queues == u.queues
            && forall n :: n in sys.queues && !sys.queues[n].state.book.faulty ==>
                 && Lower(View(t, n), View(ReadAll(sys.file.log), n))
                 && SameMeaning(View(ReadAll(sys.file.log), n), View(u, n), sys.queues[n].state.clock)
  {
    hide Good, ReadAll, SameMeaning, View, Replayed, Part, Lower, Runs, After, Enabled, Printout, Cut;
    var sys := After(run);
    SystemIsGood(run);
    SystemCompactionPreservesMeaning(run, a);
    var t, u := ReadAll(Cut(sys.file, keep)), ReadAll(Next(sys, a).file.log);
    forall n
      ensures n in t.queues <==> n in sys.queues
      ensures n in sys.queues ==> t.queues[n] == u.queues[n]
      ensures n in sys.queues ==> Lower(View(t, n), View(ReadAll(sys.file.log), n))
    {
      CutTables(sys, keep, n);
    }
    assert t.queues.Keys == u.queues.Keys;
    assert Cut(Next(sys, a).file, Next(sys, a).file.synced) == Next(sys, a).file.log by {
      WholeCut(Next(sys, a).file);
    }
  }

  lemma WholeCut(file: Disk)
    requires file.extra == [] && file.synced == |file.log|
    ensures Cut(file, file.synced) == file.log
  {
  }

  /** A file without an unacknowledged record, cut: the same queues, and attempts
      that may be lower. */
  lemma CutTables(sys: Sys, keep: nat, n: string)
    requires Good(sys) && !sys.file.latched && sys.file.synced <= keep <= |sys.file.Written()|
    ensures var t, w := ReadAll(Cut(sys.file, keep)), ReadAll(sys.file.log);
            && (n in t.queues <==> n in sys.queues)
            && (n in sys.queues ==> n in w.queues && t.queues[n] == w.queues[n] && Lower(View(t, n), View(w, n)))
  {
    hide ReadAll, Replayed, Part, Full, Alive, Owned, Unborn, Lower;
    var cut := Cut(sys.file, keep);
    QueuesDoNotInterfere(cut, n);
    QueuesDoNotInterfere(sys.file.log, n);
    TablesAre(sys, n);
    if n in sys.queues {
      var l := sys.queues[n];
      CrashLeaves(sys, keep, n);
      CutPart(sys.file, n, l.state.disk, keep);
      AliveFull(l);
      FullParts(l.state);
      PrefixReads(l.state, |Part(cut, n)|);
    } else {
      assert forall rec :: rec in cut ==> rec in sys.file.log;
      StrangerReads(cut, sys.queues.Keys, n);
    }
  }
}
