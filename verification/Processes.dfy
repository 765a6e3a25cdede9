/** What ties the objects of a running process to the system of module Systems: an
    object's own run may lag behind in what it knows of other queues' fsyncs, and
    every operation on it is a run of the system. */
module Processes {
  import opened Msgs
  import opened Recovery
  import opened Model
  import opened Partition
  import opened Restarts
  import opened SharedLog
  import opened Systems

  /** State a is state b, except that it may not know of the last fsyncs and latch
      of the shared file. */
  ghost predicate Behind(a: State, b: State) {
    && a.mem == b.mem && a.book == b.book && a.clock == b.clock
    && a.disk.log == b.disk.log && a.disk.extra == b.disk.extra && (a.disk.latched ==> b.disk.latched)
  }

  ghost predicate Lags(a: Life, b: Life) {
    a.cfg == b.cfg && Behind(a.state, b.state)
  }

  lemma RetryBehind(a: State, b: State, m: Msg, now: Time, delay: int, o: Outcome)
    requires Behind(a, b) && a.disk.latched == b.disk.latched
    ensures Behind(Retry(a, m, now, delay, o), Retry(b, m, now, delay, o))
    ensures Retry(a, m, now, delay, o).disk.latched == Retry(b, m, now, delay, o).disk.latched
  {
    hide Place;
  }

  lemma EndingBehind(a: State, b: State, e: Event)
    requires Behind(a, b) && a.disk.latched == b.disk.latched && (e.Nack? || e.Expire?) && Enabled(a, e)
    ensures Enabled(b, e) && Behind(Step(a, e), Step(b, e)) && Logs(a, e) == Logs(b, e)
    ensures Step(a, e).disk.latched == Step(b, e).disk.latched
  {
    hide Retry, RetryRecord;
    var m := a.mem.inflight[if e.Nack? then a.mem.leases[e.receipt] else e.id];
    if e.Nack? {
      var mem := EndLease(a.mem, m).(nacked := a.mem.nacked + 1);
      RetryBehind(a.(mem := mem), b.(mem := mem), m.Unleased(), a.clock, e.delay, e.o);
    } else {
      var mem := EndLease(a.mem, m).(expired := a.mem.expired + 1);
      RetryBehind(a.(mem := mem), b.(mem := mem), m.Unleased(), e.now, 0, e.o);
    }
  }

  /** A local step is possible, and does the same, in both. */
  lemma BehindStep(a: State, b: State, e: Event)
    requires Behind(a, b) && a.disk.latched == b.disk.latched && Local(e) && Enabled(a, e)
    ensures Enabled(b, e) && Behind(Step(a, e), Step(b, e)) && Logs(a, e) == Logs(b, e)
    ensures Step(a, e).disk.latched == Step(b, e).disk.latched
  {
    hide Place, Leases, EndLease, Replayed, IsDead, Lists, Retry;
    if e.Nack? || e.Expire? {
      EndingBehind(a, b, e);
    }
  }

  lemma SeenLags(a: Life, l: Life, fate: Option<Outcome>)
    requires Lags(a, l)
    ensures Lags(a, Seen(l, fate))
  {
    hide Replayed, IsDead, Lists;
  }

  // ---------- runs of the system ----------

  /** The system can take these actions from sys, and then is in sys'. */
  ghost predicate Reaches(sys: Sys, acts: seq<Action>, sys': Sys)
    decreases |acts|
  {
    if acts == [] then sys' == sys else
      var last := acts[|acts| - 1];
      exists mid :: Reaches(sys, acts[..|acts| - 1], mid) && Can(mid, last) && sys' == Next(mid, last)
  }

  /** The system gets from sys to sys'. */
  ghost predicate Follows(sys: Sys, sys': Sys) {
    exists acts :: Reaches(sys, acts, sys')
  }

  lemma FollowsItself(sys: Sys)
    ensures Follows(sys, sys)
  {
    assert Reaches(sys, [], sys);
  }

  lemma {:induction false} ReachesThen(a: Sys, x: seq<Action>, b: Sys, y: seq<Action>, c: Sys)
    requires Reaches(a, x, b) && Reaches(b, y, c)
    ensures Reaches(a, x + y, c)
  {
    hide Can, Next;
    if y == [] {
      assert x + y == x;
    } else {
      var front, last := y[..|y| - 1], y[|y| - 1];
      var mid :| Reaches(b, front, mid) && Can(mid, last) && c == Next(mid, last);
      ReachesThen(a, x, b, front, mid);
      ReachesMore(a, x + front, mid, last);
      assert x + y == x + front + [last];
    }
  }

  lemma FollowsThen(a: Sys, b: Sys, c: Sys)
    requires Follows(a, b) && Follows(b, c)
    ensures Follows(a, c)
  {
    hide Reaches;
    var x, y :| Reaches(a, x, b) && Reaches(b, y, c);
    ReachesThen(a, x, b, y, c);
  }

  lemma ReachesMore(sys: Sys, acts: seq<Action>, mid: Sys, a: Action)
    requires Reaches(sys, acts, mid) && Can(mid, a)
    ensures Reaches(sys, acts + [a], Next(mid, a))
  {
    hide Can, Next;
    var all := acts + [a];
    assert all[..|all| - 1] == acts && all[|all| - 1] == a;
  }

  /** The steps of one queue, as actions of the system. */
  ghost function OnEach(n: string, events: seq<Event>): seq<Action> {
    seq(|events|, i requires 0 <= i < |events| => On(n, events[i]))
  }

  ghost predicate AllLocal(events: seq<Event>) {
    forall i :: 0 <= i < |events| ==> Local(events[i])
  }

  /** Whoever lagged behind another queue still does. */
  ghost predicate OthersLag(sys: Sys, sys': Sys, n: string) {
    && sys'.queues.Keys == sys.queues.Keys
    && forall k, x :: k in sys.queues && k != n && Lags(x, sys.queues[k]) ==> Lags(x, sys'.queues[k])
  }

  /** Both logs grew alike so far, and grow alike by one more step. */
  lemma AlikeStep(s: State, t: State, l: Life, e: Event, file: Disk, file': Disk)
    requires Alike(s.disk, t.disk, file, file') && Behind(t, l.state)
    requires t.disk.latched == l.state.disk.latched == file'.latched
    requires Local(e) && Enabled(t, e) && Enabled(l.state, e) && (file'.latched ==> !Durables(e))
    ensures Alike(s.disk, Step(t, e).disk, file, FileAfter(file', l, e))
  {
    hide Enabled, Step, Logs;
    BehindStep(t, l.state, e);
    DiskAfter(t, e);
    DiskAfter(l.state, e);
    assert (t.disk.log + Logs(t, e))[|s.disk.log|..] == t.disk.log[|s.disk.log|..] + Logs(t, e);
    assert (file'.log + Logs(t, e))[|file.log|..] == file'.log[|file.log|..] + Logs(t, e);
  }

  /** The step has a durable append that reached the file. */
  predicate Durables(e: Event) {
    Fate(e) == Some(Ok) || Fate(e) == Some(NotSynced)
  }

  lemma LatchedHasNone(s: State, e: Event)
    requires Enabled(s, e) && s.disk.latched
    ensures !Durables(e)
  {
    hide Leases, Replayed, IsDead, Lists;
  }

  /** One step of an object that has caught up, taken by the system. */
  lemma StepIsAction(sys: Sys, n: string, t: State, e: Event)
    requires Good(sys) && n in sys.queues && Behind(t, sys.queues[n].state) && t.disk.latched == sys.file.latched
    requires Local(e) && Enabled(t, e)
    ensures Can(sys, On(n, e)) && Good(Next(sys, On(n, e))) && OthersLag(sys, Next(sys, On(n, e)), n)
    ensures var sys' := Next(sys, On(n, e));
            Behind(Step(t, e), sys'.queues[n].state) && Step(t, e).disk.latched == sys'.file.latched
    ensures Next(sys, On(n, e)).queues[n].cfg == sys.queues[n].cfg
  {
    hide Enabled, Step, Good, FileAfter, Seen;
    GoodNamed(sys, n);
    BehindStep(t, sys.queues[n].state, e);
    GoodStays(sys, On(n, e));
    GoodNamed(Next(sys, On(n, e)), n);
    forall k, x | k in sys.queues && k != n && Lags(x, sys.queues[k])
      ensures Lags(x, Next(sys, On(n, e)).queues[k])
    {
      SeenLags(x, sys.queues[k], Fate(e));
    }
  }

  lemma GoodNamed(sys: Sys, n: string)
    requires Good(sys) && n in sys.queues
    ensures sys.queues[n].state.mem.cfg.name == n && sys.queues[n].state.disk.latched == sys.file.latched
    ensures Tidy(sys.file)
  {
    NamedBy(sys.file, n, sys.queues[n]);
  }

  /** Where the two logs started and what became of one says what became of the other. */
  lemma AlikeDetermines(a: Disk, b: Disk, c: Disk, d: Disk, d': Disk)
    requires Alike(a, b, c, d) && Alike(a, b, c, d') && a.synced <= |a.log|
    ensures d == d'
  {
    assert d.log == d.log[..|c.log|] + d.log[|c.log|..] && d'.log == d'.log[..|c.log|] + d'.log[|c.log|..];
    assert d.log[..|c.log|] == c.log && d'.log[..|c.log|] == c.log;
  }

  lemma {:induction false} LocalRun(sys: Sys, n: string, s: State, events: seq<Event>) returns (sys': Sys)
    requires Good(sys) && n in sys.queues && Behind(s, sys.queues[n].state) && s.disk.latched == sys.file.latched
    requires Legal(s, events) && AllLocal(events)
    ensures Reaches(sys, OnEach(n, events), sys') && Good(sys') && OthersLag(sys, sys', n)
    ensures n in sys'.queues && sys'.queues[n].cfg == sys.queues[n].cfg
    ensures Behind(Final(s, events), sys'.queues[n].state) && Final(s, events).disk.latched == sys'.file.latched
    ensures Alike(s.disk, Final(s, events).disk, sys.file, sys'.file)
  {
    hide Good, Behind, Can, Next, Enabled, Step, Alike, OthersLag;
    if events == [] {
      sys' := sys;
      OthersLagStart(sys, n);
      AlikeNothing(s.disk, sys.file);
    } else {
      var front, e := events[..|events| - 1], events[|events| - 1];
      var mid := LocalRun(sys, n, s, front);
      var t := Final(s, front);
      StepIsAction(mid, n, t, e);
      sys' := Next(mid, On(n, e));
      ReachesMore(sys, OnEach(n, front), mid, On(n, e));
      assert OnEach(n, events) == OnEach(n, front) + [On(n, e)];
      OthersLagMore(sys, mid, sys', n);
      StepAlike(sys, mid, n, s, t, e);
    }
  }

  lemma OthersLagStart(sys: Sys, n: string)
    ensures OthersLag(sys, sys, n)
  {
  }

  lemma AlikeNothing(a: Disk, c: Disk)
    requires a.latched == c.latched
    ensures Alike(a, a, c, c)
  {
  }

  lemma OthersLagMore(a: Sys, b: Sys, c: Sys, n: string)
    requires OthersLag(a, b, n) && OthersLag(b, c, n)
    ensures OthersLag(a, c, n) && c.queues.Keys == a.queues.Keys
  {
    hide Lags;
  }

  lemma StepAlike(sys: Sys, mid: Sys, n: string, s: State, t: State, e: Event)
    requires Good(mid) && n in mid.queues && Behind(t, mid.queues[n].state) && t.disk.latched == mid.file.latched
    requires Local(e) && Enabled(t, e) && Can(mid, On(n, e)) && Alike(s.disk, t.disk, sys.file, mid.file)
    ensures Alike(s.disk, Step(t, e).disk, sys.file, Next(mid, On(n, e)).file)
  {
    hide Good, Enabled, Step, Alike, FileAfter;
    GoodNamed(mid, n);
    if mid.file.latched {
      LatchedHasNone(t, e);
    }
    BehindStep(t, mid.queues[n].state, e);
    AlikeStep(s, t, mid.queues[n], e, sys.file, mid.file);
  }

  /** An operation on a queue object that has caught up with the latch: its steps,
      taken by the system, lead to the file the operation leaves, to a queue the
      object lags behind at most, and change nothing for the other queues. */
  lemma OperationIsSystemRun(sys: Sys, n: string, s: State, events: seq<Event>, file: Disk) returns (sys': Sys)
    requires Good(sys) && n in sys.queues && Behind(s, sys.queues[n].state) && s.disk.latched == sys.file.latched
    requires s.disk.synced <= |s.disk.log| && Legal(s, events) && AllLocal(events)
    requires Alike(s.disk, Final(s, events).disk, sys.file, file)
    ensures Reaches(sys, OnEach(n, events), sys') && Good(sys') && OthersLag(sys, sys', n)
    ensures n in sys'.queues && sys'.queues[n].cfg == sys.queues[n].cfg
    ensures Behind(Final(s, events), sys'.queues[n].state) && sys'.file == file
  {
    hide Good, Behind, Can, Next, Enabled, Step, Alike, OthersLag, Legal, Final;
    sys' := LocalRun(sys, n, s, events);
    AlikeDetermines(s.disk, Final(s, events).disk, sys.file, file, sys'.file);
  }

  /** A run splits wherever one likes. */
  lemma {:induction false} SplitRun(init: State, a: seq<Event>, b: seq<Event>)
    requires Legal(init, a + b)
    ensures Legal(init, a) && Legal(Final(init, a), b) && Final(Final(init, a), b) == Final(init, a + b)
  {
    hide Enabled, Step;
    if b == [] {
      assert a + b == a;
    } else {
      var front, e := b[..|b| - 1], b[|b| - 1];
      assert (a + b)[..|a + b| - 1] == a + front && (a + b)[|a + b| - 1] == e;
      SplitRun(init, a, front);
    }
  }

  /** What an operation does first: learn of a latch it has missed. */
  ghost function Caught(failed: bool, latched: bool): seq<Event> {
    if failed && !latched then [OtherLatch] else []
  }

  lemma CaughtUp(l: Life, b: State, failed: bool)
    requires Alive(l) && Behind(l.state, b) && b.disk.latched == failed
    requires Legal(Fresh(l.cfg, l.start), l.run + Caught(failed, l.state.disk.latched))
    ensures var s := Final(Fresh(l.cfg, l.start), l.run + Caught(failed, l.state.disk.latched));
            && Behind(s, b) && s.disk.latched == failed
            && s.disk.(latched := false) == l.state.disk.(latched := false)
  {
    if failed && !l.state.disk.latched {
      assert (l.run + [OtherLatch])[..|l.run|] == l.run;
    } else {
      assert l.run + [] == l.run;
    }
  }

  /** A call that takes a queue object from life l to life l', whatever the object
      had missed before: the system follows to the file the call leaves. */
  lemma CallIsSystemRun(sys: Sys, n: string, l: Life, l': Life, events: seq<Event>, file: Disk) returns (sys': Sys)
    requires Good(sys) && n in sys.queues && Lags(l, sys.queues[n]) && Alive(l) && Alive(l')
    requires l'.cfg == l.cfg && l'.start == l.start && AllLocal(events)
    requires l'.run == l.run + Caught(sys.file.latched, l.state.disk.latched) + events
    requires Alike(l.state.disk, l'.state.disk, sys.file, file)
    ensures Reaches(sys, OnEach(n, events), sys') && Good(sys') && OthersLag(sys, sys', n)
    ensures n in sys'.queues && Lags(l', sys'.queues[n]) && sys'.file == file
  {
    hide Good, OthersLag, Reaches, Legal, Final, Alike, Full;
    var init, caught := Fresh(l.cfg, l.start), l.run + Caught(sys.file.latched, l.state.disk.latched);
    SplitRun(init, caught, events);
    GoodNamed(sys, n);
    CaughtUp(l, sys.queues[n].state, sys.file.latched);
    var s := Final(init, caught);
    AlikeCaught(l.state.disk, s.disk, l'.state.disk, sys.file, file);
    LifeTidy(l, caught);
    sys' := OperationIsSystemRun(sys, n, s, events, file);
  }

  lemma AlikeCaught(a: Disk, a': Disk, b: Disk, c: Disk, d: Disk)
    requires Alike(a, b, c, d) && a'.(latched := false) == a.(latched := false)
    ensures Alike(a', b, c, d)
  {
    assert a'.log == a.log && a'.extra == a.extra && a'.synced == a.synced;
  }

  lemma LifeTidy(l: Life, run: seq<Event>)
    requires l.cfg.Normalized() == l.cfg && Legal(Fresh(l.cfg, l.start), run)
    ensures Tidy(Final(Fresh(l.cfg, l.start), run).disk)
  {
    hide Legal, Final;
    FreshFull(l.cfg, l.start);
    FullRun(Fresh(l.cfg, l.start), run);
  }

  // ---------- the manager's steps ----------

  /** Every object lags behind its queue at most. */
  ghost predicate AllLag(lives: map<string, Life>, sys: Sys) {
    lives.Keys == sys.queues.Keys && forall n :: n in lives ==> Lags(lives[n], sys.queues[n])
  }

  lemma NeighboursLag(lives: map<string, Life>, sys: Sys, fate: Option<Outcome>, n: string)
    requires AllLag(lives, sys) && n in lives
    ensures Lags(lives[n], Neighbours(sys.queues, fate)[n])
  {
    hide Seen, Lags;
    SeenLags(lives[n], sys.queues[n], fate);
  }

  lemma CreateLags(lives: map<string, Life>, sys: Sys, cfg: Config, now: Time, o: Outcome)
    requires AllLag(lives, sys) && Can(sys, Create(cfg, now, o))
    ensures var sys' := Next(sys, Create(cfg, now, o));
            && sys'.file == sys.file.Durable(CreateRecord(cfg.Normalized(), 0), o)
            && AllLag(if o == Ok then lives[cfg.name := Born(cfg.Normalized(), now)] else lives, sys')
  {
    hide Lags, Admissible;
    forall n | n in lives
      ensures Lags(lives[n], Neighbours(sys.queues, Some(o))[n])
    {
      NeighboursLag(lives, sys, Some(o), n);
    }
    LagsItself(Born(cfg.Normalized(), now));
  }

  lemma LagsItself(l: Life)
    ensures Lags(l, l)
  {
  }

  lemma LatchLags(lives: map<string, Life>, sys: Sys)
    requires AllLag(lives, sys)
    ensures Next(sys, Latch).file == sys.file.(latched := true) && AllLag(lives, Next(sys, Latch))
  {
    hide Lags;
    forall n | n in lives
      ensures Lags(lives[n], Neighbours(sys.queues, Some(NotSynced))[n])
    {
      NeighboursLag(lives, sys, Some(NotSynced), n);
    }
  }

  /** What compaction needs to know of one queue's messages. */
  ghost predicate Listable(lives: map<string, Life>, names: seq<string>, orders: map<string, seq<Msg>>) {
    && (forall i, j :: 0 <= i < j < |names| ==> names[i] != names[j])
    && (forall n :: n in names <==> n in lives) && orders.Keys == lives.Keys
    && forall n :: n in lives ==>
         var mem := lives[n].state.mem; Lists(orders[n], mem.ready, mem.delayed, mem.inflight)
  }

  lemma CanCompactAll(lives: map<string, Life>, sys: Sys, epoch: nat, names: seq<string>, orders: map<string, seq<Msg>>)
    requires Good(sys) && AllLag(lives, sys) && !sys.file.latched && Listable(lives, names, orders)
    ensures Can(sys, CompactAll(epoch, names, orders))
  {
    hide Good, Lists, Enabled, Lags;
    forall n | n in sys.queues
      ensures Enabled(sys.queues[n].state, Model.Compact(orders[n]))
    {
      GoodNamed(sys, n);
      CanCompactOne(lives[n], sys.queues[n], orders[n]);
    }
  }

  lemma CanCompactOne(a: Life, b: Life, order: seq<Msg>)
    requires Lags(a, b) && !b.state.disk.latched
    requires Lists(order, a.state.mem.ready, a.state.mem.delayed, a.state.mem.inflight)
    ensures Enabled(b.state, Model.Compact(order))
  {
    hide Lists, Replayed, IsDead;
  }

  lemma {:induction false} SamePrintout(a: map<string, Life>, b: map<string, Life>,
                                        names: seq<string>, orders: map<string, seq<Msg>>)
    requires forall n :: n in names ==> n in a && n in b && n in orders && a[n].state.mem == b[n].state.mem
    ensures Printout(a, names, orders) == Printout(b, names, orders)
  {
    hide Print;
    if names != [] {
      assert names[|names| - 1] in names && forall n :: n in names[..|names| - 1] ==> n in names;
      SamePrintout(a, b, names[..|names| - 1], orders);
    }
  }

  lemma CompactedLags(a: Life, b: Life, order: seq<Msg>)
    requires Lags(a, b) && Enabled(a.state, Model.Compact(order)) && Enabled(b.state, Model.Compact(order))
    ensures Lags(Lived(a, Model.Compact(order)), Lived(b, Model.Compact(order)))
  {
    hide Lists, LiveRecords;
  }

  /** The objects after compaction. */
  ghost predicate Compacted(lives: map<string, Life>, lives': map<string, Life>, orders: map<string, seq<Msg>>)
    requires orders.Keys == lives.Keys
  {
    && lives'.Keys == lives.Keys
    && forall n :: n in lives ==>
         Enabled(lives[n].state, Model.Compact(orders[n])) && lives'[n] == Lived(lives[n], Model.Compact(orders[n]))
  }

  lemma CompactFile(lives: map<string, Life>, sys: Sys, epoch: nat, names: seq<string>, orders: map<string, seq<Msg>>)
    requires AllLag(lives, sys) && Can(sys, CompactAll(epoch, names, orders))
    ensures forall n :: n in names ==> n in lives && n in orders
    ensures var log := [EpochRecord(epoch)] + Printout(lives, names, orders);
            Next(sys, CompactAll(epoch, names, orders)).file == Disk(log, [], |log|, false)
  {
    hide Enabled, Printout;
    SamePrintout(lives, sys.queues, names, orders);
  }

  lemma CompactLives(lives: map<string, Life>, lives': map<string, Life>, sys: Sys, epoch: nat, names: seq<string>,
                     orders: map<string, seq<Msg>>)
    requires AllLag(lives, sys) && Can(sys, CompactAll(epoch, names, orders)) && orders.Keys == lives.Keys
    requires Compacted(lives, lives', orders)
    ensures AllLag(lives', Next(sys, CompactAll(epoch, names, orders)))
  {
    hide Enabled, Printout, Lags, Lived;
    forall n | n in lives
      ensures Lags(lives'[n], Lived(sys.queues[n], Model.Compact(orders[n])))
    {
      CompactedLags(lives[n], sys.queues[n], orders[n]);
    }
  }

  lemma CompactLags(lives: map<string, Life>, lives': map<string, Life>, sys: Sys, epoch: nat, names: seq<string>,
                    orders: map<string, seq<Msg>>)
    requires Good(sys) && AllLag(lives, sys) && !sys.file.latched && Listable(lives, names, orders)
    requires Compacted(lives, lives', orders)
    ensures Can(sys, CompactAll(epoch, names, orders))
    ensures forall n :: n in names ==> n in lives && n in orders
    ensures var sys' := Next(sys, CompactAll(epoch, names, orders));
            var log := [EpochRecord(epoch)] + Printout(lives, names, orders);
            AllLag(lives', sys') && sys'.file == Disk(log, [], |log|, false)
  {
    hide Good, Can, Next, AllLag, Compacted, Printout, Lists;
    CanCompactAll(lives, sys, epoch, names, orders);
    CompactFile(lives, sys, epoch, names, orders);
    CompactLives(lives, lives', sys, epoch, names, orders);
  }

  lemma AllLagItself(sys: Sys)
    ensures AllLag(sys.queues, sys)
  {
  }

  lemma CrashFile(sys: Sys, a: Action)
    requires a.Crash? && Can(sys, a)
    ensures Next(sys, a).file == Disk(Cut(sys.file, a.keep), [], a.keep, false)
  {
    hide ReadAll, Refused, Enabled, Restarted;
  }
}
