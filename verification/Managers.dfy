/** The manager: every queue, and the one log they share (queue/manager.go). */
module Managers {
  import opened Msgs
  import opened Recovery
  import opened Model
  import opened Partition
  import opened Restarts
  import opened Sequences
  import opened SharedLog
  import opened Systems
  import opened Processes
  import opened Wal
  import Q = Queues

  datatype CreateStatus = Created | NameRequired | BadName | BadMode | QueueExists | NotLogged

  datatype ReplayStatus = AllPublished | QueueNotFound | StaleBookmark | ScanFailed | EnqueueFailed

  /** What Replay keeps of a record. */
  datatype Item = Item(body: string, priority: int)

  /** Is this an enqueue to the queue, at or after since? */
  predicate Wanted(rec: Record, name: string, since: Time)
    ensures Wanted(rec, name, since) ==> rec.msg.Some?
  {
    && rec.op == OpEnqueue && rec.queue == name && rec.msg.Some?
    && (since == ZERO_TIME || since <= rec.msg.value.enqueuedAt)
  }

  /** The messages of a stretch of log that Replay publishes anew. */
  function Selected(recs: seq<Record>, name: string, since: Time): (items: seq<Item>) {
    if recs == [] then [] else
      var rec := recs[|recs| - 1];
      Selected(recs[..|recs| - 1], name, since) +
      if Wanted(rec, name, since) then [Item(rec.msg.value.body, rec.msg.value.priority)] else []
  }

  /** The items are, in order, those of the records at these positions: all enqueues
      to the queue, of a message that arrived at or after since. */
  ghost predicate Picks(items: seq<Item>, at: seq<nat>, recs: seq<Record>, name: string, since: Time) {
    && |at| == |items| && (forall i, j :: 0 <= i < j < |at| ==> at[i] < at[j])
    && (forall i :: 0 <= i < |at| ==>
          && at[i] < |recs| && recs[at[i]].msg.Some?
          && items[i].body == recs[at[i]].msg.value.body && items[i].priority == recs[at[i]].msg.value.priority)
    && forall p: nat :: p < |recs| ==>
         (p in at <==> && recs[p].op == OpEnqueue && recs[p].queue == name && recs[p].msg.Some?
                       && (since == 0 || recs[p].msg.value.enqueuedAt >= since))
  }

  /** One more record, which is picked or not. */
  lemma PickOneMore(items: seq<Item>, at: seq<nat>, recs: seq<Record>, rec: Record, name: string, since: Time)
    requires Picks(items, at, recs, name, since)
    ensures !Wanted(rec, name, since) ==> Picks(items, at, recs + [rec], name, since)
    ensures Wanted(rec, name, since) ==>
              Picks(items + [Item(rec.msg.value.body, rec.msg.value.priority)], at + [|recs|],
                    recs + [rec], name, since)
  {
    assert forall p: nat :: p in at ==> p < |recs|;
    assert forall p: nat :: p in at + [|recs|] <==> p in at || p == |recs|;
    assert forall p: nat :: p < |recs| ==> (recs + [rec])[p] == recs[p];
  }

  lemma {:induction false} SelectedPicks(recs: seq<Record>, name: string, since: Time) returns (at: seq<nat>)
    ensures Picks(Selected(recs, name, since), at, recs, name, since)
  {
    at := [];
    if recs != [] {
      hide Picks, Wanted;
      var front, rec := recs[..|recs| - 1], recs[|recs| - 1];
      at := SelectedPicks(front, name, since);
      assert recs == front + [rec];
      PickOneMore(Selected(front, name, since), at, front, rec, name, since);
      if Wanted(rec, name, since) {
        at := at + [|front|];
      } else {
        assert Selected(front, name, since) + [] == Selected(front, name, since);
      }
    }
  }

  /** The log's own epoch records hold no messages. */
  lemma {:induction false} EpochsAreNotPicked(recs: seq<Record>, name: string, since: Time)
    ensures Selected(Delivered(recs), name, since) == Selected(recs, name, since)
  {
    if recs != [] {
      var front, last := recs[..|recs| - 1], recs[|recs| - 1];
      EpochsAreNotPicked(front, name, since);
      if last.op == OpEpoch {
        assert Delivered(front) + [] == Delivered(front);
      } else {
        assert (Delivered(front) + [last])[..|Delivered(front)|] == Delivered(front);
      }
    }
  }

  /** The messages that successful Enqueue steps of a run published without delay. */
  ghost function Published(run: seq<Event>): seq<Item> {
    if run == [] then [] else
      var e := run[|run| - 1];
      Published(run[..|run| - 1]) +
      if e.Enqueue? && e.o == Ok && e.delay == 0 then [Item(e.body, e.priority)] else []
  }

  lemma PublishedMore(run: seq<Event>, e: Event)
    ensures Published(run + [e]) ==
            Published(run) + if e.Enqueue? && e.o == Ok && e.delay == 0 then [Item(e.body, e.priority)] else []
  {
    assert (run + [e])[..|run|] == run;
  }

  /** One call of Enqueue, seen in the run. */
  lemma EnqueuePublishes(run: seq<Event>, failed: bool, latched: bool, now: Time, e: Event)
    requires e.Enqueue? && e.delay == 0
    ensures Published(run + Q.Prelude(failed, latched, now) + [e] + if e.o == Ok then [Signal] else []) ==
            Published(run) + if e.o == Ok then [Item(e.body, e.priority)] else []
  {
    var a := run + if failed && !latched then [OtherLatch] else [];
    if failed && !latched {
      PublishedMore(run, OtherLatch);
    } else {
      assert a == run;
    }
    PublishedMore(a, Clock(now));
    assert run + Q.Prelude(failed, latched, now) == a + [Clock(now)];
    PublishedMore(a + [Clock(now)], e);
    if e.o == Ok {
      PublishedMore(a + [Clock(now)] + [e], Signal);
    } else {
      assert a + [Clock(now)] + [e] + [] == a + [Clock(now)] + [e];
    }
  }

  // ---------- recover: reading ----------

  /** The callback of recover, once per record. */
  method ReadLog(log: seq<Record>) returns (queues: map<string, Config>, pending: map<string, Pending>)
    ensures Tables(queues, pending) == ReadAll(log)
  {
    queues, pending := map[], map[];
    assert log[..0] == [];
    for i := 0 to |log|
      invariant Tables(queues, pending) == ReadAll(log[..i])
    {
      assert log[..i + 1][..i] == log[..i];
      queues, pending := ReadRecord(queues, pending, log[i]);
    }
    assert log[..|log|] == log;
  }

  method ReadRecord(queues0: map<string, Config>, pending0: map<string, Pending>, rec: Record)
    returns (queues: map<string, Config>, pending: map<string, Pending>)
    ensures Tables(queues, pending) == Read(Tables(queues0, pending0), rec)
  {
    queues, pending := queues0, pending0;
    var p := if rec.queue in pending then pending[rec.queue] else NOTHING;
    match rec.op
    case OpCreateQueue =>
      if rec.config == None {
        return;
      }
      if rec.queue !in queues {
        queues := queues[rec.queue := rec.config.value.Normalized()];
      }
      p := Bump(p, rec.seqNo);
      pending := pending[rec.queue := p];
    case OpEnqueue =>
      if rec.msg == None {
        return;
      }
      p := p.(live := p.live[rec.msg.value.id := rec.msg.value]);
      p := Bump(p, rec.msg.value.seqNo);
      pending := pending[rec.queue := p];
    case OpLease =>
      if rec.msg == None {
        return;
      }
      var m := rec.msg.value;
      if m.id in p.live {
        p := p.(live := p.live[m.id := p.live[m.id].(attempts := m.attempts)]);
      }
      pending := pending[rec.queue := p];
    case OpNack =>
      if rec.msg == None {
        return;
      }
      var m := rec.msg.value;
      if m.id in p.live {
        p := p.(live := p.live[m.id := p.live[m.id].(attempts := m.attempts, visibleAt := m.visibleAt)]);
      }
      pending := pending[rec.queue := p];
    case OpAck =>
      p := p.(live := p.live - {rec.id}, dlq := p.dlq - {rec.id});
      pending := pending[rec.queue := p];
    case OpDLQ =>
      pending := pending[rec.queue := p.(dlq := p.dlq + {rec.id})];
    case OpReplay =>
      p := p.(dlq := p.dlq - {rec.id});
      if rec.id in p.live {
        p := p.(live := p.live[rec.id := p.live[rec.id].(attempts := 0)]);
      }
      pending := pending[rec.queue := p];
    case OpEpoch =>
  }

  /** Nothing was read for this name. */
  predicate Empty(p: Pending) {
    p.live == map[] && p.dlq == {}
  }

  function Bump(p: Pending, seqNo: nat): Pending {
    if seqNo > p.maxSeq then p.(maxSeq := seqNo) else p
  }

  // ---------- recover: sorting ----------

  ghost predicate BySeq(ms: seq<Msg>) {
    forall i, j :: 0 <= i < j < |ms| ==> ms[i].seqNo <= ms[j].seqNo
  }

  /** Put one message where its sequence number belongs. */
  method InsertBySeq(ms: seq<Msg>, m: Msg) returns (out: seq<Msg>)
    requires BySeq(ms)
    ensures BySeq(out) && multiset(out) == multiset(ms) + multiset{m}
  {
    var k := |ms|;
    while k > 0 && ms[k - 1].seqNo > m.seqNo
      invariant 0 <= k <= |ms|
      invariant forall i :: k <= i < |ms| ==> m.seqNo < ms[i].seqNo
    {
      k := k - 1;
    }
    Spliced(ms, k, m);
    out := ms[..k] + [m] + ms[k..];
  }

  lemma Spliced(ms: seq<Msg>, k: nat, m: Msg)
    requires k <= |ms|
    ensures multiset(ms[..k] + [m] + ms[k..]) == multiset(ms) + multiset{m}
  {
    assert ms == ms[..k] + ms[k..];
  }

  /** sort.Slice by Seq */
  method SortBySeq(ms: seq<Msg>) returns (out: seq<Msg>)
    ensures BySeq(out) && multiset(out) == multiset(ms)
  {
    out := [];
    for i := 0 to |ms|
      invariant BySeq(out) && multiset(out) == multiset(ms[..i])
    {
      assert ms[..i + 1] == ms[..i] + [ms[i]];
      out := InsertBySeq(out, ms[i]);
    }
    assert ms[..|ms|] == ms;
  }

  /** ms lists, each once, the messages of live with these IDs. */
  ghost predicate ListOf(ms: seq<Msg>, live: map<Id, Msg>, ids: set<Id>) {
    && DistinctIds(ms)
    && (forall m :: m in ms ==> m.id in live && m.id in ids && m == live[m.id])
    && (forall id :: id in live && id in ids ==> live[id] in ms)
  }

  lemma ListOneMore(ms: seq<Msg>, live: map<Id, Msg>, ids: set<Id>, id: Id)
    requires Keyed(live) && ListOf(ms, live, ids) && id in live && id !in ids
    ensures ListOf(ms + [live[id]], live, ids + {id})
  {
    forall i | 0 <= i < |ms|
      ensures ms[i].id != id
    {
      assert ms[i] in ms;
    }
  }

  /** Sorting keeps a list a list; distinct numbers make it strict. */
  lemma SortedIsList(ms: seq<Msg>, out: seq<Msg>, live: map<Id, Msg>, ids: set<Id>)
    requires Keyed(live) && ListOf(ms, live, ids) && multiset(out) == multiset(ms) && BySeq(out)
    ensures ListOf(out, live, ids)
    ensures DistinctSeq(live) ==> forall i, j :: 0 <= i < j < |out| ==> out[i].seqNo < out[j].seqNo
  {
    forall m
      ensures m in out <==> m in ms
    {
      assert m in multiset(out) <==> m in multiset(ms);
    }
    forall i, j | 0 <= i < j < |out|
      ensures out[i].id != out[j].id
    {
      if out[i].id == out[j].id {
        assert out[i] in out && out[j] in out;
        TwiceCounts(out, i, j);
        OnceAtMost(ms, out[i]);
      }
    }
    forall i, j | 0 <= i < j < |out| && DistinctSeq(live)
      ensures out[i].seqNo < out[j].seqNo
    {
      assert out[i] in out && out[j] in out;
    }
  }

  lemma {:induction false} OnceAtMost(ms: seq<Msg>, m: Msg)
    requires DistinctIds(ms)
    ensures multiset(ms)[m] <= 1
  {
    if ms != [] {
      var front, last := ms[..|ms| - 1], ms[|ms| - 1];
      OnceAtMost(front, m);
      assert ms == front + [last];
      assert last !in front;
    }
  }

  lemma TwiceCounts(out: seq<Msg>, i: nat, j: nat)
    requires i < j < |out| && out[i] == out[j]
    ensures multiset(out)[out[i]] >= 2
  {
    assert out == out[..j] + [out[j]] + out[j + 1..];
    assert out[i] in out[..j];
  }

  /** The recovered messages of one queue, the dead ones apart, each list by Seq. */
  method Split(p: Pending) returns (live: seq<Msg>, dead: seq<Msg>)
    requires Keyed(p.live)
    ensures ListOf(live, p.live, p.live.Keys - p.dlq) && ListOf(dead, p.live, p.live.Keys * p.dlq)
    ensures BySeq(live) && BySeq(dead)
    ensures DistinctSeq(p.live) ==> forall i, j :: 0 <= i < j < |dead| ==> dead[i].seqNo < dead[j].seqNo
  {
    hide DistinctSeq;
    var todo := p.live.Keys;
    var l, d := [], [];
    while todo != {}
      invariant todo <= p.live.Keys
      invariant ListOf(l, p.live, p.live.Keys - todo - p.dlq) && ListOf(d, p.live, (p.live.Keys - todo) * p.dlq)
      decreases |todo|
    {
      hide *;
      var id :| id in todo;
      SplitOne(l, d, p, todo, id);
      if id in p.dlq {
        d := d + [p.live[id]];
      } else {
        l := l + [p.live[id]];
      }
      todo := todo - {id};
    }
    assert p.live.Keys - {} - p.dlq == p.live.Keys - p.dlq && (p.live.Keys - {}) * p.dlq == p.live.Keys * p.dlq;
    live := SortBySeq(l);
    dead := SortBySeq(d);
    SortedIsList(l, live, p.live, p.live.Keys - p.dlq);
    SortedIsList(d, dead, p.live, p.live.Keys * p.dlq);
  }

  lemma SplitOne(l: seq<Msg>, d: seq<Msg>, p: Pending, todo: set<Id>, id: Id)
    requires Keyed(p.live) && todo <= p.live.Keys && id in todo
    requires ListOf(l, p.live, p.live.Keys - todo - p.dlq) && ListOf(d, p.live, (p.live.Keys - todo) * p.dlq)
    ensures var rest := todo - {id};
            if id in p.dlq then
              && ListOf(l, p.live, p.live.Keys - rest - p.dlq)
              && ListOf(d + [p.live[id]], p.live, (p.live.Keys - rest) * p.dlq)
            else
              && ListOf(l + [p.live[id]], p.live, p.live.Keys - rest - p.dlq)
              && ListOf(d, p.live, (p.live.Keys - rest) * p.dlq)
  {
    hide ListOf;
    var rest := todo - {id};
    if id in p.dlq {
      ListOneMore(d, p.live, (p.live.Keys - todo) * p.dlq, id);
      assert (p.live.Keys - todo) * p.dlq + {id} == (p.live.Keys - rest) * p.dlq;
      assert p.live.Keys - todo - p.dlq == p.live.Keys - rest - p.dlq;
    } else {
      ListOneMore(l, p.live, p.live.Keys - todo - p.dlq, id);
      assert p.live.Keys - todo - p.dlq + {id} == p.live.Keys - rest - p.dlq;
      assert (p.live.Keys - todo) * p.dlq == (p.live.Keys - rest) * p.dlq;
    }
  }

  /** What restore asks of the two lists. */
  lemma SplitIsList(r: Staging, live: seq<Msg>, dead: seq<Msg>)
    requires ListOf(live, r.live, r.live.Keys - r.dlq) && ListOf(dead, r.live, r.live.Keys * r.dlq)
    requires forall i, j :: 0 <= i < j < |dead| ==> dead[i].seqNo < dead[j].seqNo
    ensures Q.LiveList(r, live) && Q.DeadList(r, dead)
  {
  }

  // ---------- recover: what to restore ----------

  /** What recover hands to restore for one queue. */
  datatype Plan = Plan(cfg: Config, live: seq<Msg>, dead: seq<Msg>, maxSeq: nat)

  ghost predicate Planned(p: Plan, r: Staging) {
    && r.cfg == Some(p.cfg) && p.maxSeq == r.maxSeq
    && ListOf(p.live, r.live, r.live.Keys - r.dlq) && ListOf(p.dead, r.live, r.live.Keys * r.dlq)
    && BySeq(p.live) && BySeq(p.dead)
    && (DistinctSeq(r.live) ==> forall i, j :: 0 <= i < j < |p.dead| ==> p.dead[i].seqNo < p.dead[j].seqNo)
  }

  /** The names in some order: ranging over a map. */
  method ListNames(names: set<string>) returns (out: seq<string>)
    ensures forall n :: n in out <==> n in names
    ensures forall i, j :: 0 <= i < j < |out| ==> out[i] != out[j]
  {
    var todo := names;
    out := [];
    while todo != {}
      invariant todo <= names && forall n :: n in out <==> n in names && n !in todo
      invariant forall i, j :: 0 <= i < j < |out| ==> out[i] != out[j]
      decreases |todo|
    {
      var n :| n in todo;
      out, todo := out + [n], todo - {n};
    }
  }

  method PlanOne(cfg: Config, p: Pending, ghost log: seq<Record>, ghost n: string) returns (plan: Plan)
    requires n in ReadAll(log).queues && n in ReadAll(log).pending
    requires cfg == ReadAll(log).queues[n] && p == ReadAll(log).pending[n]
    ensures Planned(plan, View(ReadAll(log), n))
  {
    hide ReadAll, Replayed, Part, ListOf, BySeq, DistinctSeq, Keyed;
    QueuesDoNotInterfere(log, n);
    LiveIsKeyed(Part(log, n));
    var live, dead := Split(p);
    plan := Plan(cfg, live, dead, p.maxSeq);
  }

  lemma Strays(t: Tables, n: string)
    requires n in t.pending && n !in t.queues && !Empty(t.pending[n])
    ensures Refused(t)
  {
  }

  lemma NoStrays(t: Tables)
    requires forall n :: n in t.pending && n !in t.queues ==> Empty(t.pending[n])
    ensures !Refused(t)
  {
  }

  /** recover up to the restoring, on any log whatsoever: refuse exactly when it
      holds messages for a queue whose create record is gone, or else say for every
      queue created in it what to restore. */
  method Prepare(log: seq<Record>) returns (ok: bool, plans: map<string, Plan>)
    ensures ok <==> !Refused(ReadAll(log))
    ensures ok ==> plans.Keys == ReadAll(log).queues.Keys
    ensures ok ==> forall n :: n in plans ==> Planned(plans[n], View(ReadAll(log), n))
  {
    hide ReadAll, Planned, Refused, Empty;
    var queues, pending := ReadLog(log);
    CreatedHasPending(log);
    plans, ok := map[], false;
    var names := ListNames(pending.Keys);
    for i := 0 to |names|
      invariant forall n :: n in plans <==> n in names[..i] && n in queues
      invariant forall n :: n in plans ==> Planned(plans[n], View(ReadAll(log), n))
      invariant forall n :: n in names[..i] && n !in queues ==> Empty(pending[n])
    {
      var n := names[i];
      assert names[..i + 1] == names[..i] + [n];
      if n in queues {
        var plan := PlanOne(queues[n], pending[n], log, n);
        plans := plans[n := plan];
      } else if !Empty(pending[n]) {
        Strays(Tables(queues, pending), n);
        return;
      }
    }
    assert names[..|names|] == names;
    NoStrays(Tables(queues, pending));
    ok := true;
  }

  // ---------- recover: restoring ----------

  /** The life that wrote the records of one name, as the crash found it. */
  ghost function Past(sys: Sys, cut: seq<Record>, n: string, now: Time): Life
    requires n in ReadAll(cut).queues
  {
    if n in sys.queues then sys.queues[n] else Born(ReadAll(cut).queues[n], now)
  }

  /** The dead letters of r, leases wiped, in sequence order. */
  ghost predicate Graveyard(dead: seq<Msg>, r: Staging) {
    && DistinctIds(dead) && BySeq(dead)
    && (forall m :: m in dead ==> m.id in r.live && m.id in r.dlq && m == r.live[m.id].Unleased())
    && (forall id :: id in r.live && id in r.dlq ==> r.live[id].Unleased() in dead)
  }

  lemma PlanBuries(plan: Plan, r: Staging)
    requires Planned(plan, r) && Keyed(r.live)
    ensures Graveyard(Q.Wiped(plan.dead), r) && Q.LiveList(r, plan.live) && DistinctIds(plan.live)
  {
    var wiped := Q.Wiped(plan.dead);
    forall m | m in wiped
      ensures m.id in r.live && m.id in r.dlq && m == r.live[m.id].Unleased()
    {
      var i :| 0 <= i < |wiped| && wiped[i] == m;
      assert plan.dead[i] in plan.dead;
    }
    forall id | id in r.live && id in r.dlq
      ensures r.live[id].Unleased() in wiped
    {
      var i :| 0 <= i < |plan.dead| && plan.dead[i] == r.live[id];
      assert wiped[i] == r.live[id].Unleased();
    }
  }

  /** Life l wrote the records that a crash has cut to the first keep, from which r
      is read. */
  ghost predicate Wrote(l: Life, keep: nat, r: Staging, now: Time) {
    && Alive(l) && l.state.disk.synced <= keep <= |l.state.disk.Written()| && l.state.clock <= now
    && r == Replayed(l.state.disk.Written()[..keep]) && r.cfg == Some(l.cfg)
  }

  /** One name's queue: New, then restore, on whatever was read for it. If l is the
      life that wrote it, its restart is what comes out. */
  method Rebuild(plan: Plan, wal: WAL, now: Time, ghost r: Staging, ghost l: Life, ghost keep: nat)
    returns (q: Q.Queue, ghost dead: seq<Msg>)
    requires Planned(plan, r) && Keyed(r.live) && plan.cfg.Normalized() == plan.cfg
    ensures fresh(q) && fresh(q.ready) && fresh(q.delayed) && fresh(q.inflight)
    ensures q.wal == wal && r.cfg == Some(q.cfg) && Graveyard(dead, r) && q.Installed(Restored(r, dead, now))
    ensures Wrote(l, keep, r, now) ==>
              && q.Core() && q.cfg == l.cfg && q.start == l.start && Enabled(l.state, Restart(keep, now, dead))
              && q.run == l.run + [Restart(keep, now, dead)] && q.s == Step(l.state, Restart(keep, now, dead))
  {
    hide Legal, Final, Enabled, Step, ListOf, DistinctSeq, Keyed, Q.LiveList, Q.DeadList, Replayed;
    hide Graveyard, BySeq, Restored, Q.Queue.Installed, Q.Queue.Core, Q.Filed, Q.Wiped;
    q := new Q.Queue(plan.cfg, wal, l.start);
    PlanBuries(plan, r);
    if Wrote(l, keep, r, now) {
      WroteRecovers(q, plan, r, l, keep, now);
    }
    dead := Q.Wiped(plan.dead);
    ListsRestore(q, plan, r, now);
    q.Restore(plan.live, plan.dead, plan.maxSeq, now, l.run, keep);
  }

  lemma ListsRestore(q: Q.Queue, plan: Plan, r: Staging, now: Time)
    requires Planned(plan, r) && Keyed(r.live) && Q.LiveList(r, plan.live) && q.cfg == plan.cfg
    ensures q.FromLists(plan.live, plan.dead, plan.maxSeq, now) == Restored(r, Q.Wiped(plan.dead), now)
  {
    hide ListOf, BySeq, DistinctSeq, Q.LiveList, Keyed, Q.Filed;
    Q.FiledIsRestored(r, plan.live, Q.Wiped(plan.dead), now);
  }

  lemma WroteRecovers(q: Q.Queue, plan: Plan, r: Staging, l: Life, keep: nat, now: Time)
    requires Planned(plan, r) && Wrote(l, keep, r, now) && q.cfg == plan.cfg && q.start == l.start
    ensures q.Recovering(l.run, keep, plan.live, plan.dead, plan.maxSeq, now) && q.cfg == l.cfg
  {
    hide Legal, Final, ListOf, DistinctSeq, Q.LiveList, Q.DeadList, Replayed;
    LifeNumbered(l, keep);
    SplitIsList(r, plan.live, plan.dead);
  }

  lemma {:induction false} CreatedHasPending(log: seq<Record>)
    ensures ReadAll(log).queues.Keys <= ReadAll(log).pending.Keys
  {
    if log != [] {
      CreatedHasPending(log[..|log| - 1]);
    }
  }

  /** The log is what a crash of the system left of its file. */
  ghost predicate Fits(sys: Sys, keep: nat, log: seq<Record>, now: Time) {
    && Good(sys) && sys.file.synced <= keep <= |sys.file.Written()| && log == Cut(sys.file, keep)
    && forall n :: n in sys.queues ==> sys.queues[n].state.clock <= now
  }

  /** What a crash leaves of one queue is what its life had written. */
  lemma PastWrote(sys: Sys, keep: nat, log: seq<Record>, n: string, now: Time)
    requires Fits(sys, keep, log, now) && n in ReadAll(log).queues
    ensures Wrote(Past(sys, log, n, now), |Part(log, n)|, View(ReadAll(log), n), now)
  {
    hide ReadAll, Replayed, Part, Final, Legal;
    CrashLeaves(sys, keep, n);
    QueuesDoNotInterfere(log, n);
    if n in sys.queues {
      CutPart(sys.file, n, sys.queues[n].state.disk, keep);
    } else {
      BornAlive(ReadAll(log).queues[n], now);
    }
  }

  lemma {:induction false} TablesNormalized(log: seq<Record>)
    ensures forall n :: n in ReadAll(log).queues ==>
              ReadAll(log).queues[n].Normalized() == ReadAll(log).queues[n]
  {
    if log != [] {
      TablesNormalized(log[..|log| - 1]);
    }
  }

  lemma BornAlive(cfg: Config, now: Time)
    requires cfg.Normalized() == cfg
    ensures Alive(Born(cfg, now))
  {
  }

  lemma LifeNumbered(l: Life, keep: nat)
    requires Alive(l) && keep <= |l.state.disk.Written()|
    ensures DistinctSeq(Replayed(l.state.disk.Written()[..keep]).live)
    ensures Keyed(Replayed(l.state.disk.Written()[..keep]).live)
  {
    hide Full, Numbered, NumbersOnce, Legal, Final, Replayed;
    FreshFull(l.cfg, l.start);
    FreshNumbered(l.cfg, l.start);
    NumberedRun(Fresh(l.cfg, l.start), l.run);
    PrefixNumbered(l.state, keep);
    LiveDistinct(l.state.disk.Written()[..keep]);
    LiveIsKeyed(l.state.disk.Written()[..keep]);
  }

  class Manager {
    var queues: map<string, Q.Queue>
    const wal: WAL

    constructor (log: WAL)
      ensures wal == log && queues == map[]
    {
      wal := log;
      queues := map[];
    }

    ghost function LifeOf(q: Q.Queue): Life
      reads q
    {
      Life(q.cfg, q.start, q.run, q.s)
    }

    ghost function Lives(): map<string, Life>
      reads this, queues.Values
    {
      map n | n in queues :: LifeOf(queues[n])
    }

    /** The process is where the system is: the file that a restart would find is the
        system's, and each queue lags behind the system's at most. */
    ghost predicate Shows(sys: Sys)
      reads this, wal, queues.Values
    {
      AllLag(Lives(), sys) && sys.file == wal.AtPath()
    }

    /** The process is where an action takes the system, followed by a latch or not. */
    ghost predicate ShowsAfter(sys: Sys, a: Action, latched: bool)
      reads this, wal, queues.Values
    {
      Can(sys, a) && Shows(if latched then Next(Next(sys, a), Latch) else Next(sys, a))
    }

    /** A queue of this manager. */
    ghost predicate Mine(n: string)
      requires n in queues
      reads this, wal, queues[n], queues[n].ready, queues[n].delayed, queues[n].inflight,
            queues[n].ready.contents, queues[n].delayed.contents, queues[n].inflight.contents, queues[n].dlq
    {
      && queues[n].Core() && queues[n].cfg.name == n && queues[n].wal == wal
      && (queues[n].s.disk.latched ==> wal.failed)
    }

    /** q is the queue that life l became by the restart e. */
    ghost predicate Rebuilt(q: Q.Queue, l: Life, e: Event)
      reads q, q.ready, q.delayed, q.inflight, q.ready.contents, q.delayed.contents, q.inflight.contents, q.dlq
    {
      q.Core() && q.wal == wal && Enabled(l.state, e) && LifeOf(q) == Lived(l, e)
    }

    /** q is the restart of the life that wrote the records of n. */
    ghost predicate RebuiltFrom(q: Q.Queue, dead: seq<Msg>, sys: Sys, log: seq<Record>, n: string, now: Time)
      reads q, q.ready, q.delayed, q.inflight, q.ready.contents, q.delayed.contents, q.inflight.contents, q.dlq
    {
      && n in ReadAll(log).queues
      && Rebuilt(q, Past(sys, log, n, now), Restart(|Part(log, n)|, now, dead))
    }

    /** q is what was read for name n, restored; and if a crash of the system left the
        log, it is the restart of the life that wrote it. */
    ghost predicate Restarted(q: Q.Queue, dead: seq<Msg>, log: seq<Record>, n: string, now: Time, sys: Sys, keep: nat)
      reads q, q.ready, q.delayed, q.inflight, q.ready.contents, q.delayed.contents, q.inflight.contents, q.dlq
    {
      && n in ReadAll(log).queues && q.wal == wal
      && var r := View(ReadAll(log), n);
      && r.cfg == Some(q.cfg) && Graveyard(dead, r) && q.Installed(Restored(r, dead, now))
      && (Fits(sys, keep, log, now) ==> RebuiltFrom(q, dead, sys, log, n, now))
    }

    /** Rebuild the queue of one name that recovery met. */
    method RebuildName(n: string, plan: Plan, now: Time, ghost log: seq<Record>, ghost sys: Sys, ghost keep: nat)
      returns (q: Q.Queue, ghost dead: seq<Msg>)
      requires n in ReadAll(log).queues && Planned(plan, View(ReadAll(log), n))
      ensures fresh(q) && fresh(q.ready) && fresh(q.delayed) && fresh(q.inflight)
      ensures Restarted(q, dead, log, n, now, sys, keep)
    {
      hide Fits, ReadAll, Replayed, Part, Final, Legal, Enabled, Step, Alive, ListOf, BySeq, DistinctSeq, Graveyard;
      hide Keyed, Q.Queue.Installed, Q.Queue.Core, Restored, Wrote, Past;
      ghost var l, k := Past(sys, log, n, now), |Part(log, n)|;
      if Fits(sys, keep, log, now) {
        PastWrote(sys, keep, log, n, now);
      }
      TablesNormalized(log);
      QueuesDoNotInterfere(log, n);
      LiveIsKeyed(Part(log, n));
      q, dead := Rebuild(plan, wal, now, View(ReadAll(log), n), l, k);
      WroteConfig(l, k, View(ReadAll(log), n), now);
    }

    lemma WroteConfig(l: Life, keep: nat, r: Staging, now: Time)
      ensures Wrote(l, keep, r, now) ==> r.cfg == Some(l.cfg)
    {
    }

    /** recover, on any log: it refuses exactly when the log holds messages for a queue
        whose create record is gone, and otherwise restores what it has read for every
        queue. If a crash of the system left the log, it does not refuse and performs
        the crash step of the whole system: the objects it makes are where their
        lives' restarts lead. */
    method Recover(log: seq<Record>, now: Time, ghost sys: Sys, ghost keep: nat)
      returns (ok: bool, ghost graves: map<string, seq<Msg>>, ghost deads: map<string, seq<Msg>>)
      modifies this`queues
      ensures ok <==> !Refused(ReadAll(log))
      ensures !ok ==> queues == old(queues)
      ensures ok ==> queues.Keys == graves.Keys == ReadAll(log).queues.Keys
      ensures ok ==> forall n :: n in queues ==> Restarted(queues[n], graves[n], log, n, now, sys, keep)
      ensures Fits(sys, keep, log, now) && wal.AtPath() == Disk(log, [], keep, false) ==>
                && ok && Can(sys, Crash(keep, now, deads)) && Shows(Next(sys, Crash(keep, now, deads)))
                && Lives() == Next(sys, Crash(keep, now, deads)).queues
                && forall n :: n in queues ==> Mine(n)
    {
      hide Good, ReadAll, Can, Next, Refused, RebuiltFrom, Planned, WAL.AtPath, Shows, Mine, Cut, Restarted;
      graves, deads := map[], map[];
      var plans;
      ok, plans := Prepare(log);
      if ok {
        var made;
        made, graves := RebuildAll(log, plans, now, sys, keep);
        queues := made;
        if Fits(sys, keep, log, now) && wal.AtPath() == Disk(log, [], keep, false) {
          deads := RecoverShows(sys, keep, now, graves);
        }
      } else if Fits(sys, keep, log, now) {
        NeverRefused(sys, keep);
      }
    }

    /** Queues that are all rebuilt show the system after the crash. */
    lemma RecoverShows(sys: Sys, keep: nat, now: Time, deads: map<string, seq<Msg>>)
      returns (own: map<string, seq<Msg>>)
      requires keep <= |sys.file.Written()| && Fits(sys, keep, Cut(sys.file, keep), now)
      requires !Refused(ReadAll(Cut(sys.file, keep)))
      requires wal.AtPath() == Disk(Cut(sys.file, keep), [], keep, false)
      requires queues.Keys == deads.Keys == ReadAll(Cut(sys.file, keep)).queues.Keys
      requires forall n :: n in queues ==> Restarted(queues[n], deads[n], Cut(sys.file, keep), n, now, sys, keep)
      ensures Can(sys, Crash(keep, now, own)) && Shows(Next(sys, Crash(keep, now, own)))
      ensures Lives() == Next(sys, Crash(keep, now, own)).queues
      ensures forall n :: n in queues ==> Mine(n)
    {
      hide Good, ReadAll, Part, Enabled, Step, Alive, Can, Next, Q.Queue.Core, Q.Queue.Installed, Graveyard;
      hide Refused, Past, WAL.AtPath, AllLag, Mine, Lived, Restored, View;
      own := CrashDone(sys, keep, now, deads);
      forall n | n in queues
        ensures Mine(n)
      {
        RestoredIsMine(sys, keep, n, now, deads[n]);
      }
      assert Lives() == Next(sys, Crash(keep, now, own)).queues;
      CrashFile(sys, Crash(keep, now, own));
      AllLagItself(Next(sys, Crash(keep, now, own)));
    }

    /** The loop over the names that recovery met. */
    method RebuildAll(ghost log: seq<Record>, plans: map<string, Plan>, now: Time, ghost sys: Sys, ghost keep: nat)
      returns (made: map<string, Q.Queue>, ghost deads: map<string, seq<Msg>>)
      requires plans.Keys == ReadAll(log).queues.Keys
      requires forall n :: n in plans ==> Planned(plans[n], View(ReadAll(log), n))
      ensures made.Keys == deads.Keys == plans.Keys
      ensures forall n :: n in made ==> Restarted(made[n], deads[n], log, n, now, sys, keep)
    {
      hide ReadAll, Restarted, Planned, View;
      made, deads := map[], map[];
      var names := ListNames(plans.Keys);
      for i := 0 to |names|
        invariant made.Keys == deads.Keys
        invariant forall n :: n in made <==> n in names[..i]
        invariant forall n :: n in made ==> Restarted(made[n], deads[n], log, n, now, sys, keep)
      {
        var n := names[i];
        assert names[..i + 1] == names[..i] + [n];
        made, deads := RebuildNext(made, deads, n, plans[n], now, log, sys, keep);
      }
      assert names[..|names|] == names;
    }

    /** One more name. */
    method RebuildNext(made0: map<string, Q.Queue>, ghost deads0: map<string, seq<Msg>>, n: string, plan: Plan,
                       now: Time, ghost log: seq<Record>, ghost sys: Sys, ghost keep: nat)
      returns (made: map<string, Q.Queue>, ghost deads: map<string, seq<Msg>>)
      requires n in ReadAll(log).queues && Planned(plan, View(ReadAll(log), n))
      requires made0.Keys == deads0.Keys
      requires forall k :: k in made0 ==> Restarted(made0[k], deads0[k], log, k, now, sys, keep)
      ensures made.Keys == deads.Keys == made0.Keys + {n}
      ensures forall k :: k in made ==> Restarted(made[k], deads[k], log, k, now, sys, keep)
    {
      hide ReadAll, Restarted, Planned, View;
      var q, dead := RebuildName(n, plan, now, log, sys, keep);
      made, deads := made0[n := q], deads0[n := dead];
    }

    lemma RestoredIsMine(sys: Sys, keep: nat, n: string, now: Time, dead: seq<Msg>)
      requires n in queues && Good(sys) && sys.file.synced <= keep <= |sys.file.Written()|
      requires RebuiltFrom(queues[n], dead, sys, Cut(sys.file, keep), n, now)
      ensures Mine(n)
    {
      hide ReadAll, Replayed, Part, Final, Legal, Q.Queue.Core, IsDead;
      CrashLeaves(sys, keep, n);
    }

    /** The restarts of all queues together are the crash step. */
    lemma CrashDone(sys: Sys, keep: nat, now: Time, deads: map<string, seq<Msg>>) returns (own: map<string, seq<Msg>>)
      requires Good(sys) && sys.file.synced <= keep <= |sys.file.Written()| && !Refused(ReadAll(Cut(sys.file, keep)))
      requires forall n :: n in sys.queues ==> sys.queues[n].state.clock <= now
      requires deads.Keys == ReadAll(Cut(sys.file, keep)).queues.Keys
      requires var cut := Cut(sys.file, keep);
               forall n :: n in deads ==> Enabled(Past(sys, cut, n, now).state, Restart(|Part(cut, n)|, now, deads[n]))
      ensures Can(sys, Crash(keep, now, own))
      ensures var cut := Cut(sys.file, keep);
              var sys' := Next(sys, Crash(keep, now, own));
              && sys'.queues.Keys == deads.Keys
              && forall n :: n in deads ==>
                   sys'.queues[n] == Lived(Past(sys, cut, n, now), Restart(|Part(cut, n)|, now, deads[n]))
    {
      hide Good, ReadAll, Replayed, Part, Enabled, Step, Refused;
      var cut := Cut(sys.file, keep);
      forall n | n in sys.queues
        ensures n in deads
      {
        CrashLeaves(sys, keep, n);
      }
      own := map n | n in sys.queues :: deads[n];
      forall n | n in deads && n !in sys.queues
        ensures Reborn(ReadAll(cut).queues[n], now) ==
                Lived(Past(sys, cut, n, now), Restart(|Part(cut, n)|, now, deads[n]))
      {
        RebornIs(sys, keep, now, n, deads[n]);
      }
    }

    lemma SomeoneOrNobody(ms: seq<Msg>)
      ensures ms == [] || exists m :: m in ms
    {
      if ms != [] {
        assert ms[0] in ms;
      }
    }

    lemma RebornIs(sys: Sys, keep: nat, now: Time, n: string, dead: seq<Msg>)
      requires Good(sys) && sys.file.synced <= keep <= |sys.file.Written()|
      requires n in ReadAll(Cut(sys.file, keep)).queues && n !in sys.queues
      requires var cut := Cut(sys.file, keep);
               Enabled(Past(sys, cut, n, now).state, Restart(|Part(cut, n)|, now, dead))
      ensures var cut := Cut(sys.file, keep);
              Reborn(ReadAll(cut).queues[n], now) ==
              Lived(Past(sys, cut, n, now), Restart(|Part(cut, n)|, now, dead))
    {
      hide Good, ReadAll, Part, Step, Replayed;
      var cut := Cut(sys.file, keep);
      var cfg := ReadAll(cut).queues[n];
      CrashLeaves(sys, keep, n);
      CanRevive(cfg, now);
      CreateReads(cfg, 0);
      assert Fresh(cfg, now).disk.Written()[..1] == [CreateRecord(cfg, 0)];
      SomeoneOrNobody(dead);
    }

    /** The process dies, and k bytes of its log survive. What a scan reads of them is
        what a crash of the system leaves of its file. */
    lemma CrashLeavesCut(sys: Sys, k: nat) returns (keep: nat)
      requires wal.Valid() && Shows(sys)
      requires if wal.path == wal.f then wal.durable <= k <= |wal.inodes[wal.f]| else k == |wal.inodes[wal.path]|
      requires wal.path == wal.f && k > wal.size ==>
                 Framing.Scan(wal.codec, wal.inodes[wal.f][wal.size..k]).recs == []
      ensures sys.file.synced <= keep <= |sys.file.Written()|
      ensures wal.path < |wal.inodes| && k <= |wal.inodes[wal.path]|
      ensures Framing.Scan(wal.codec, wal.inodes[wal.path][..k]).recs == Cut(sys.file, keep)
    {
      hide AllLag, Framing.Scan, Framing.Faithful, L.MaxEpoch, L.EpochFirst;
      keep := wal.CrashIsRestart(k);
    }

    // ---------- Create ----------

    /** Create: refuse what cannot be a queue; otherwise make its record durable
        before the queue exists for anyone, which is one action of the system. */
    method Create(cfg: Config, ghost clock: Time, ghost sys: Sys)
      returns (st: CreateStatus, q: Q.Queue?, ghost o: Outcome)
      requires wal.Valid()
      modifies this`queues, wal
      ensures wal.Valid()
      ensures st == NameRequired <==> cfg.name == ""
      ensures st == BadName <==> cfg.name != "" && exists c :: c in cfg.name && c in "/?#% "
      ensures st == BadMode <==> st != NameRequired && st != BadName && cfg.mode != "fifo" && cfg.mode != "lifo"
      ensures Admissible(cfg) <==> st in {QueueExists, Created, NotLogged}
      ensures st == QueueExists <==> Admissible(cfg) && cfg.name in old(queues)
      ensures st == Created || st == NotLogged ==>
                && (st == Created <==> o == Ok) && (st == Created <==> wal.Untroubled())
                && wal.AtPath() == old(wal.AtPath()).Durable(CreateRecord(cfg.Normalized(), 0), o)
                && (old(Shows(sys)) ==>
                      Can(sys, Systems.Create(cfg, clock, o)) && Shows(Next(sys, Systems.Create(cfg, clock, o))))
      ensures st == Created ==>
                && q != null && fresh(q) && queues == old(queues)[cfg.name := q]
                && q.Core() && q.wal == wal && LifeOf(q) == Born(cfg.Normalized(), clock)
      ensures st != Created ==> q == null && queues == old(queues)
      ensures st != Created && st != NotLogged ==> unchanged(wal) && (old(Shows(sys)) ==> Shows(sys))
    {
      hide WAL.Valid, WAL.AtPath, Q.Queue.Core, AllLag, Next, Can;
      q, o := null, Ok;
      if cfg.name == "" {
        return NameRequired, q, o;
      }
      if exists c :: c in cfg.name && c in "/?#% " {
        return BadName, q, o;
      }
      if cfg.mode != FIFO && cfg.mode != LIFO {
        return BadMode, q, o;
      }
      if cfg.name in queues {
        return QueueExists, q, o;
      }
      var out;
      q, out := CreateLogged(cfg, clock);
      o := out;
      if old(Shows(sys)) {
        CreateShows(old(Lives()), old(wal.AtPath()), sys, cfg, clock, o);
      }
      st := if out == Ok then Created else NotLogged;
    }

    /** The part of Create that follows its checks. */
    method CreateLogged(cfg: Config, ghost clock: Time) returns (q: Q.Queue?, o: Outcome)
      requires wal.Valid() && cfg.name !in queues
      modifies this`queues, wal
      ensures wal.Valid() && wal.AtPath() == old(wal.AtPath()).Durable(CreateRecord(cfg.Normalized(), 0), o)
      ensures Possible(old(wal.AtPath()), o) && (o == Ok <==> wal.Untroubled())
      ensures Lives() == if o == Ok then old(Lives())[cfg.name := Born(cfg.Normalized(), clock)] else old(Lives())
      ensures o == Ok ==>
                && q != null && fresh(q) && queues == old(queues)[cfg.name := q]
                && q.Core() && q.wal == wal && LifeOf(q) == Born(cfg.Normalized(), clock)
      ensures o != Ok ==> q == null && queues == old(queues)
    {
      hide WAL.Valid, WAL.AtPath, Q.Queue.Core, Lives, Born, Possible;
      LivesAre();
      var made;
      made, o := MakeLogged(cfg, clock);
      q := null;
      ghost var table := queues;
      if o == Ok {
        q := made;
        queues := queues[cfg.name := q];
        LivesWith(table, old(Lives()), cfg.name, q);
      } else {
        LivesSame(old(Lives()));
      }
    }

    /** A new queue, and its record in the log. */
    method MakeLogged(cfg: Config, ghost clock: Time) returns (q: Q.Queue, o: Outcome)
      requires wal.Valid()
      modifies wal
      ensures wal.Valid() && wal.AtPath() == old(wal.AtPath()).Durable(CreateRecord(cfg.Normalized(), 0), o)
      ensures Possible(old(wal.AtPath()), o) && (o == Ok <==> wal.Untroubled())
      ensures fresh(q) && q.Core() && q.wal == wal && LifeOf(q) == Born(cfg.Normalized(), clock)
    {
      hide WAL.Valid, WAL.AtPath, Q.Queue.Core;
      q := new Q.Queue(cfg, wal, clock);
      o := wal.AppendSync(CreateRecord(q.cfg, 0));
    }

    lemma LivesAre()
      ensures Lives().Keys == queues.Keys && forall n :: n in queues ==> LifeOf(queues[n]) == Lives()[n]
    {
    }

    lemma LivesWith(table: map<string, Q.Queue>, lives: map<string, Life>, name: string, q: Q.Queue)
      requires queues == table[name := q] && lives.Keys == table.Keys
      requires forall n :: n in table ==> LifeOf(table[n]) == lives[n]
      ensures Lives() == lives[name := LifeOf(q)]
    {
    }

    lemma LivesSame(lives: map<string, Life>)
      requires queues.Keys == lives.Keys && forall n :: n in queues ==> LifeOf(queues[n]) == lives[n]
      ensures Lives() == lives
    {
    }

    lemma CreateShows(lives: map<string, Life>, file: Disk, sys: Sys, cfg: Config, now: Time, o: Outcome)
      requires AllLag(lives, sys) && sys.file == file && Admissible(cfg) && cfg.name !in lives && Possible(file, o)
      requires Lives() == if o == Ok then lives[cfg.name := Born(cfg.Normalized(), now)] else lives
      requires wal.AtPath() == file.Durable(CreateRecord(cfg.Normalized(), 0), o)
      ensures Can(sys, Systems.Create(cfg, now, o)) && Shows(Next(sys, Systems.Create(cfg, now, o)))
    {
      hide AllLag, Can, Next, Admissible, WAL.AtPath;
      CreateNext(lives, sys, cfg, now, o);
    }

    lemma CreateNext(lives: map<string, Life>, sys: Sys, cfg: Config, now: Time, o: Outcome)
      requires AllLag(lives, sys) && Admissible(cfg) && cfg.name !in lives && Possible(sys.file, o)
      ensures Can(sys, Systems.Create(cfg, now, o))
      ensures var sys' := Next(sys, Systems.Create(cfg, now, o));
              && sys'.file == sys.file.Durable(CreateRecord(cfg.Normalized(), 0), o)
              && AllLag(if o == Ok then lives[cfg.name := Born(cfg.Normalized(), now)] else lives, sys')
    {
      hide Lags, Next, Admissible;
      CreateLags(lives, sys, cfg, now, o);
    }

    // ---------- Replay ----------

    /** The scan of Replay, filtered as it goes. */
    method Find(recs: seq<Record>, name: string, since: Time) returns (found: seq<Item>)
      ensures found == Selected(recs, name, since)
    {
      found := [];
      for i := 0 to |recs|
        invariant found == Selected(recs[..i], name, since)
      {
        assert recs[..i + 1][..i] == recs[..i];
        var rec := recs[i];
        if rec.op != OpEnqueue || rec.queue != name || rec.msg == None {
          continue;
        }
        if since != ZERO_TIME && rec.msg.value.enqueuedAt < since {
          continue;
        }
        found := found + [Item(rec.msg.value.body, rec.msg.value.priority)];
      }
      assert recs[..|recs|] == recs;
    }

    /** IDs and clock readings that the calls to come will meet. */
    ghost predicate Supply(q: Q.Queue, ids: nat -> Id, clocks: nat -> Time, from: nat)
      reads q
    {
      && (forall i: nat, j: nat :: i < j ==> ids(i) != ids(j) && clocks(i) <= clocks(j))
      && (forall i: nat :: from <= i ==> ids(i) !in q.s.book.used && ids(i) != NO_RECEIPT)
      && q.s.clock <= clocks(from)
    }

    /** After a call on one queue object, the system can follow. */
    lemma FollowCall(lives: map<string, Life>, sys: Sys, name: string, events: seq<Event>) returns (sys': Sys)
      requires Good(sys) && AllLag(lives, sys) && name in queues && queues.Keys == lives.Keys
      requires forall n :: n in queues && n != name ==> LifeOf(queues[n]) == lives[n]
      requires Alive(lives[name]) && Alive(LifeOf(queues[name])) && AllLocal(events)
      requires var l, l' := lives[name], LifeOf(queues[name]);
               && l'.cfg == l.cfg && l'.start == l.start
               && l'.run == l.run + Caught(sys.file.latched, l.state.disk.latched) + events
               && Alike(l.state.disk, l'.state.disk, sys.file, wal.AtPath())
      ensures Good(sys') && Shows(sys') && Follows(sys, sys')
    {
      hide Good, Alike, Alive, WAL.AtPath, Lags, Reaches;
      sys' := CallIsSystemRun(sys, name, lives[name], LifeOf(queues[name]), events, wal.AtPath());
      assert Follows(sys, sys');
    }

    /** Objects under different names of a system are different. */
    lemma NamesTell(sys: Sys, name: string)
      requires Good(sys) && Shows(sys) && name in queues
      ensures forall n :: n in queues && n != name ==> queues[n] != queues[name]
    {
      hide Alive, Parted, Behind, WAL.AtPath, Tidy, Owned, Unborn;
      forall n | n in queues
        ensures queues[n].cfg.name == n
      {
        assert Lives()[n] == LifeOf(queues[n]);
      }
    }

    /** One enqueue of Replay, and the events it adds to the run. */
    method EnqueueItem(q: Q.Queue, it: Item, id: Id, now: Time) returns (done: bool, ghost events: seq<Event>)
      requires q.Valid() && q.s.clock <= now && id !in q.s.book.used && id != NO_RECEIPT
      modifies q, q.wal, q.ready, q.delayed, q.ready.contents`index, q.delayed.contents`index
      ensures q.Valid() && AllLocal(events) && (done ==> events != [] && !q.wal.failed)
      ensures q.wal.Trouble() >= old(q.wal.Trouble())
      ensures !done ==> !q.wal.Untroubled() || (it.priority != 0 && !q.cfg.priority)
      ensures fresh(q.ready.contents - old(q.ready.contents)) && fresh(q.delayed.contents - old(q.delayed.contents))
      ensures Published(q.run) == old(Published(q.run)) + if done then [it] else []
      ensures done ==> q.s.clock == now && q.s.book.used == old(q.s.book.used) + {id}
      ensures events == [] ==> q.s == old(q.s) && q.run == old(q.run) && q.wal.AtPath() == old(q.wal.AtPath())
      ensures events != [] ==>
                && q.run == old(q.run) + Caught(old(q.wal.failed), old(q.s.disk.latched)) + events
                && Alike(old(q.s.disk), q.s.disk, old(q.wal.AtPath()), q.wal.AtPath())
    {
      hide Q.Queue.Core, WAL.Valid, WAL.AtPath, Published, Alike;
      ghost var run, failed, latched := q.run, q.wal.failed, q.s.disk.latched;
      var status, msg, o := q.Enqueue(it.body, it.priority, 0, id, now);
      done, events := status == Q.Done, [];
      if status != Q.PriorityDisabled {
        ghost var e := Model.Enqueue(id, it.body, it.priority, 0, o);
        EnqueuePublishes(run, failed, latched, now, e);
        events := [Clock(now), e] + if o == Ok then [Signal] else [];
        assert q.run == run + Caught(failed, latched) + events;
      }
    }

    /** One enqueue of Replay: a new message, which the system can follow. */
    method PublishOne(name: string, it: Item, id: Id, now: Time, ghost sys: Sys) returns (done: bool, ghost sys': Sys)
      requires name in queues && queues[name].Valid() && queues[name].wal == wal
      requires queues[name].s.clock <= now && id !in queues[name].s.book.used && id != NO_RECEIPT
      modifies queues[name], wal, queues[name].ready, queues[name].delayed
      modifies queues[name].ready.contents`index, queues[name].delayed.contents`index
      ensures queues[name].Valid()
      ensures fresh(queues[name].ready.contents - old(queues[name].ready.contents))
      ensures fresh(queues[name].delayed.contents - old(queues[name].delayed.contents))
      ensures Published(queues[name].run) == old(Published(queues[name].run)) + if done then [it] else []
      ensures wal.Trouble() >= old(wal.Trouble()) && (done ==> !wal.failed)
      ensures !done ==> !wal.Untroubled() || (it.priority != 0 && !queues[name].cfg.priority)
      ensures done ==> queues[name].s.clock == now && queues[name].s.book.used == old(queues[name].s.book.used) + {id}
      ensures Good(sys) && old(Shows(sys)) ==> Good(sys') && Shows(sys') && Follows(sys, sys')
    {
      hide Q.Queue.Core, WAL.Valid, WAL.AtPath, Published, Good, AllLag, Follows, Alike, Alive, Caught, AllLocal;
      var q := queues[name];
      ghost var lives := Lives();
      sys' := sys;
      FollowsItself(sys);
      CoreAlive(q);
      if Good(sys) && Shows(sys) {
        NamesTell(sys, name);
      }
      ghost var events;
      done, events := EnqueueItem(q, it, id, now);
      CoreAlive(q);
      if Good(sys) && old(Shows(sys)) {
        if events == [] {
          assert Lives() == lives;
        } else {
          sys' := FollowCall(lives, sys, name, events);
        }
      }
    }

    lemma CoreAlive(q: Q.Queue)
      requires q.Core()
      ensures Alive(LifeOf(q))
    {
    }

    /** The enqueues of Replay; the count says how many messages are live. */
    method PublishAll(name: string, found: seq<Item>, ids: nat -> Id, clocks: nat -> Time, ghost sys: Sys)
      returns (st: ReplayStatus, published: nat, ghost sys': Sys)
      requires name in queues && queues[name].Valid() && queues[name].wal == wal && Supply(queues[name], ids, clocks, 0)
      modifies queues[name], wal, queues[name].ready, queues[name].delayed
      modifies queues[name].ready.contents`index, queues[name].delayed.contents`index
      ensures queues[name].Valid() && published <= |found|
      ensures Published(queues[name].run) == old(Published(queues[name].run)) + found[..published]
      ensures st == if published == |found| then AllPublished else EnqueueFailed
      ensures st == EnqueueFailed ==>
                !wal.Untroubled() || (found[published].priority != 0 && !queues[name].cfg.priority)
      ensures Good(sys) && old(Shows(sys)) ==> Good(sys') && Shows(sys') && Follows(sys, sys')
    {
      hide Q.Queue.Core, WAL.Valid, WAL.AtPath, Published, Good, Shows, Follows;
      published, sys' := 0, sys;
      FollowsItself(sys);
      var q := queues[name];
      while published < |found|
        invariant published <= |found| && q.Valid() && Supply(q, ids, clocks, published)
        invariant fresh(q.ready.contents - old(q.ready.contents)) && fresh(q.delayed.contents - old(q.delayed.contents))
        invariant Published(q.run) == old(Published(q.run)) + found[..published]
        invariant wal.Trouble() >= old(wal.Trouble()) && (wal.Untroubled() ==> !wal.failed)
        invariant Good(sys) && old(Shows(sys)) ==> Good(sys') && Shows(sys') && Follows(sys, sys')
      {
        ghost var before := sys';
        var done;
        done, sys' := PublishOne(name, found[published], ids(published), clocks(published), before);
        if Good(sys) && old(Shows(sys)) {
          FollowsThen(sys, before, sys');
        }
        if !done {
          return EnqueueFailed, published, sys';
        }
        assert found[..published + 1] == found[..published] + [found[published]];
        published := published + 1;
      }
      st := AllPublished;
    }

    /** The records a scan from the bookmark hands over. */
    ghost function FromBookmark(bm: L.Bookmark): Framing.Scanned
      requires wal.f < |wal.inodes| && 0 <= bm.offset <= wal.size <= |wal.inodes[wal.f]|
      reads wal
    {
      Framing.Scan(wal.codec, wal.inodes[wal.f][bm.offset..wal.size])
    }

    /** The first half of Replay, from any offset whatsoever: check the epoch, scan,
        and keep what is wanted. */
    method FindFrom(name: string, bm: L.Bookmark, since: Time)
      returns (st: ReplayStatus, found: seq<Item>, ghost at: seq<nat>)
      requires wal.Valid()
      modifies wal`epoch
      ensures wal.Valid() && wal.AtPath() == old(wal.AtPath()) && st in {StaleBookmark, ScanFailed, AllPublished}
      ensures st == StaleBookmark <==> bm.offset > 0 && bm.epoch != old(wal.epoch)
      ensures st == ScanFailed <==>
                && st != StaleBookmark
                && (0 <= bm.offset <= old(wal.size) ==> !old(FromBookmark(bm)).clean)
      ensures st == AllPublished ==> Picks(found, at, old(FromBookmark(bm)).recs, name, since)
    {
      hide WAL.AtPath, Framing.Scan, Framing.Faithful, WAL.Secured;
      found, at := [], [];
      if bm.offset > 0 && bm.epoch != wal.epoch {
        return StaleBookmark, found, at;
      }
      var r := wal.ReadFrom(bm.offset);
      if !r.Records? {
        return ScanFailed, found, at;
      }
      found := Find(r.recs, name, since);
      EpochsAreNotPicked(old(FromBookmark(bm)).recs, name, since);
      at := SelectedPicks(old(FromBookmark(bm)).recs, name, since);
      st := AllPublished;
    }

    ghost function Footprint(name: string): set<object>
      reads this, queues.Values, (set q | q in queues.Values :: q.ready), (set q | q in queues.Values :: q.delayed)
    {
      if name in queues then
        {queues[name], queues[name].ready, queues[name].delayed} +
        queues[name].ready.contents + queues[name].delayed.contents
      else {}
    }

    /** Replay: publish anew, in order, what the scan finds. The system follows. */
    method Replay(name: string, bm: L.Bookmark, since: Time, ids: nat -> Id, clocks: nat -> Time, ghost sys: Sys)
      returns (st: ReplayStatus, published: nat, ghost found: seq<Item>, ghost at: seq<nat>, ghost sys': Sys)
      requires wal.Valid()
      requires name in queues ==>
                 queues[name].Valid() && queues[name].wal == wal && Supply(queues[name], ids, clocks, 0)
      modifies wal, Footprint(name)
      ensures wal.Valid() && (name in queues ==> queues[name].Valid())
      ensures st == QueueNotFound <==> name !in queues
      ensures st == StaleBookmark <==> name in queues && bm.offset > 0 && bm.epoch != old(wal.epoch)
      ensures st == ScanFailed <==>
                && name in queues && st != StaleBookmark
                && (0 <= bm.offset <= old(wal.size) ==> !old(FromBookmark(bm)).clean)
      ensures st == AllPublished || st == EnqueueFailed ==>
                && Picks(found, at, old(FromBookmark(bm)).recs, name, since)
                && published <= |found| && (st == AllPublished <==> published == |found|)
                && Published(queues[name].run) == old(Published(queues[name].run)) + found[..published]
      ensures st == EnqueueFailed ==>
                !wal.Untroubled() || (found[published].priority != 0 && !queues[name].cfg.priority)
      ensures st in {QueueNotFound, StaleBookmark, ScanFailed} ==>
                published == 0 && wal.AtPath() == old(wal.AtPath())
      ensures Good(sys) && old(Shows(sys)) ==> Good(sys') && Shows(sys') && Follows(sys, sys')
    {
      hide Q.Queue.Core, WAL.Valid, WAL.AtPath, WAL.Value, Published, Framing.Scan, Good, AllLag, Follows;
      FollowsItself(sys);
      published, sys', found, at := 0, sys, [], [];
      if name !in queues {
        return QueueNotFound, published, found, at, sys';
      }
      ValidLog();
      var items;
      st, items, at := FindFrom(name, bm, since);
      found := items;
      if st == AllPublished {
        st, published, sys' := PublishAll(name, items, ids, clocks, sys);
      }
    }

    lemma ValidLog()
      requires wal.Valid()
      ensures wal.f < |wal.inodes| && wal.size <= |wal.inodes[wal.f]|
    {
      hide Framing.Scan, Framing.Faithful, WAL.Secured;
    }

    // ---------- Compact ----------

    /** The records of every queue, one printout after another. */
    method Collect(names: seq<string>) returns (live: seq<Record>, ghost orders: map<string, seq<Msg>>)
      requires forall n :: n in names ==> n in queues && queues[n].Core()
      requires forall i, j :: 0 <= i < j < |names| ==> names[i] != names[j]
      ensures Listing(names, orders, Lives()) && live == Printout(Lives(), names, orders)
    {
      hide Q.Queue.Core, Lists, Print, Listing;
      live, orders := [], map[];
      ghost var lives := Lives();
      NoListing(lives);
      for i := 0 to |names|
        invariant Listing(names[..i], orders, lives) && Covers(names[..i], orders, lives)
        invariant live == Printout(lives, names[..i], orders)
      {
        var n := names[i];
        assert names[..i + 1] == names[..i] + [n];
        var recs, order := queues[n].LiveRecords();
        Prints(n, order, recs);
        ListMore(lives, names[..i], orders, n, order);
        PrintMore(lives, names[..i], orders, n, order);
        live := live + recs;
        orders := orders[n := order];
      }
      assert names[..|names|] == names;
    }

    /** The step compaction is to one queue. */
    ghost method CompactOne(q: Q.Queue, order: seq<Msg>)
      requires q.Core() && CanCompact(q.s, order)
      modifies q`s, q`run
      ensures q.Core() && Enabled(old(q.s), Model.Compact(order)) && !q.s.disk.latched
      ensures LifeOf(q) == Lived(old(LifeOf(q)), Model.Compact(order))
    {
      hide Q.Queue.Core, Lists;
      CompactIsQuiet(q.s, order);
      q.DoQuiet(Model.Compact(order));
    }

    /** Queues of different names are different objects. */
    ghost predicate Apart()
      reads this
    {
      forall n :: n in queues ==> queues[n].cfg.name == n
    }

    /** Every queue takes its compaction step. */
    ghost method CompactEach(names: seq<string>, orders: map<string, seq<Msg>>)
      requires Apart() && forall i, j :: 0 <= i < j < |names| ==> names[i] != names[j]
      requires forall n :: n in names ==>
                 n in queues && n in orders && queues[n].Core() && CanCompact(queues[n].s, orders[n])
      modifies (set n | n in names && n in queues :: queues[n])`s, (set n | n in names && n in queues :: queues[n])`run
      ensures forall n :: n in names ==>
                && queues[n].Core() && Enabled(old(queues[n].s), Model.Compact(orders[n])) && !queues[n].s.disk.latched
                && LifeOf(queues[n]) == Lived(old(LifeOf(queues[n])), Model.Compact(orders[n]))
      decreases |names|
    {
      hide Q.Queue.Core, Step, Enabled, CanCompact;
      if names != [] {
        var n, rest := names[0], names[1..];
        assert names == [n] + rest && n !in rest;
        assert forall k :: k in rest ==> queues[k] != queues[n];
        CompactOne(queues[n], orders[n]);
        CompactEach(rest, orders);
      }
    }

    /** Compact: print every queue, then put the printout in the place of the log.
        Aborted, nothing happens to any queue or file. Otherwise the path names the
        new file, and every queue has taken its compaction step; if the new file could
        not be opened the log is latched as well. */
    method Compact(ghost sys: Sys) returns (r: Compaction, names: seq<string>, ghost orders: map<string, seq<Msg>>)
      requires wal.Valid() && Apart() && forall n :: n in queues ==> Mine(n)
      modifies wal, queues.Values`s, queues.Values`run
      ensures wal.Valid() && Listable(old(Lives()), names, orders)
      ensures r == Aborted ==> wal.SameLog() && Lives() == old(Lives())
      ensures r == Swapped <==> wal.Untroubled()
      ensures r != Aborted ==>
                && Compacted(old(Lives()), Lives(), orders) && (forall n :: n in queues ==> Mine(n))
                && var log := [EpochRecord(old(wal.epoch) + 1)] + Printout(old(Lives()), names, orders);
                   wal.AtPath() == Disk(log, [], |log|, r == Orphaned)
      ensures Good(sys) && old(Shows(sys)) ==>
                if r == Aborted then Shows(sys) else
                  ShowsAfter(sys, CompactAll(old(wal.epoch) + 1, names, orders), r == Orphaned)
    {
      hide Good, Q.Queue.Core, WAL.Valid, WAL.AtPath, Printout, Listable, Compacted, AllLag, Can, Next;
      var live;
      names, live, orders := CollectAll();
      ghost var lives, file, epoch := Lives(), wal.AtPath(), wal.epoch;
      ListableNames(names, orders);
      r := SwapLog(live);
      if r != Aborted {
        CompactAllQueues(names, orders);
        if Good(sys) && old(Shows(sys)) {
          CompactShows(lives, file, sys, epoch, names, orders, r == Orphaned);
        }
      }
    }

    /** The printouts of all queues. */
    method CollectAll() returns (names: seq<string>, live: seq<Record>, ghost orders: map<string, seq<Msg>>)
      requires forall n :: n in queues ==> queues[n].Core()
      ensures Listable(Lives(), names, orders) && orders.Keys == queues.Keys
      ensures live == Printout(Lives(), names, orders) && forall rec :: rec in live ==> rec.op != OpEpoch
    {
      hide Q.Queue.Core, Lists, Printout, Listing;
      names := ListNames(queues.Keys);
      live, orders := Collect(names);
      ListingListable(names, orders, Lives());
      PrintsNoEpoch(Lives(), names, orders);
    }

    ghost method CompactAllQueues(names: seq<string>, orders: map<string, seq<Msg>>)
      requires Apart() && Listable(Lives(), names, orders) && orders.Keys == queues.Keys
      requires forall n :: n in queues ==> queues[n].Core() && queues[n].wal == wal && !queues[n].s.disk.latched
      modifies queues.Values`s, queues.Values`run
      ensures Compacted(old(Lives()), Lives(), orders) && forall n :: n in queues ==> Mine(n)
    {
      hide Q.Queue.Core, Lists, Step, Enabled, Lived, CanCompact;
      ListableNames(names, orders);
      forall n | n in names
        ensures CanCompact(queues[n].s, orders[n])
      {
        MayCompact(names, orders, n);
      }
      hide Listable;
      CompactEach(names, orders);
    }

    lemma ListableNames(names: seq<string>, orders: map<string, seq<Msg>>)
      requires Listable(Lives(), names, orders)
      ensures (forall n :: n in names <==> n in queues) && orders.Keys == queues.Keys
      ensures forall i, j :: 0 <= i < j < |names| ==> names[i] != names[j]
    {
      hide Lists;
    }

    lemma MayCompact(names: seq<string>, orders: map<string, seq<Msg>>, n: string)
      requires Listable(Lives(), names, orders) && n in names && n in queues && !queues[n].s.disk.latched
      ensures n in orders && CanCompact(queues[n].s, orders[n])
    {
      hide Lists;
      assert n in Lives() && Lives()[n].state == queues[n].s;
    }

    lemma CompactShows(lives: map<string, Life>, file: Disk, sys: Sys, epoch: nat, names: seq<string>,
                       orders: map<string, seq<Msg>>, orphaned: bool)
      requires Good(sys) && AllLag(lives, sys) && sys.file == file && !file.latched && Listable(lives, names, orders)
      requires Compacted(lives, Lives(), orders)
      requires forall n :: n in names ==> n in lives && n in orders
      requires var log := [EpochRecord(epoch + 1)] + Printout(lives, names, orders);
               wal.AtPath() == Disk(log, [], |log|, orphaned)
      ensures ShowsAfter(sys, CompactAll(epoch + 1, names, orders), orphaned)
    {
      hide Good, AllLag, Compacted, Printout, Listable, WAL.AtPath, Next;
      CompactLags(lives, Lives(), sys, epoch + 1, names, orders);
      LatchLags(Lives(), Next(sys, CompactAll(epoch + 1, names, orders)));
    }

    /** The log's part of compaction. */
    method SwapLog(live: seq<Record>) returns (r: Compaction)
      requires wal.Valid() && forall rec :: rec in live ==> rec.op != OpEpoch
      modifies wal
      ensures wal.Valid() && (r == Aborted ==> wal.SameLog()) && (r != Aborted ==> !old(wal.failed))
      ensures r == Swapped <==> wal.Untroubled()
      ensures r != Aborted ==>
                var log := [EpochRecord(old(wal.epoch) + 1)] + live; wal.AtPath() == Disk(log, [], |log|, r == Orphaned)
    {
      hide WAL.AtPath, L.After, L.MaxEpoch, L.EpochFirst, Framing.Scan, Framing.Faithful, WAL.Secured;
      ghost var before := wal.Value();
      r := wal.Compact(live);
      if r == Swapped {
        SwappedFile(before, live);
      } else if r == Orphaned {
        OrphanedFile(before, live);
      }
    }

    /** The swapped file, as its writers see it. */
    lemma SwappedFile(before: L.Log, live: seq<Record>)
      requires L.Ok(before) && L.Can(before, L.Compact(live)) && wal.Value() == L.After(before, L.Compact(live))
      requires wal.unacked == 0
      ensures var log := [EpochRecord(before.epoch + 1)] + live; wal.AtPath() == Disk(log, [], |log|, false)
    {
      hide L.MaxEpoch, L.EpochFirst;
    }

    /** The file that was renamed into place but not opened, as a restart finds it. */
    lemma OrphanedFile(before: L.Log, live: seq<Record>)
      requires L.Ok(before) && L.Can(before, L.Orphan(live)) && wal.Value() == L.After(before, L.Orphan(live))
      ensures var log := [EpochRecord(before.epoch + 1)] + live; wal.AtPath() == Disk(log, [], |log|, true)
    {
      hide L.MaxEpoch, L.EpochFirst;
    }

    lemma Prints(n: string, order: seq<Msg>, recs: seq<Record>)
      requires n in queues && queues[n].Core()
      requires var mem := queues[n].s.mem;
               && recs == LiveRecords(mem.cfg, mem.seqNo, order, mem.dlq)
               && Lists(order, mem.ready, mem.delayed, mem.inflight)
      ensures n in Lives() && recs == Print(Lives()[n].state.mem, order)
      ensures var mem := Lives()[n].state.mem; Lists(order, mem.ready, mem.delayed, mem.inflight)
    {
    }
  }

  /** Open, on any bytes: the log is repaired and recovered. If the bytes are what a
      crash of the system left, the manager shows the system after the crash. */
  method Open(codec: Framing.Codec, bytes: seq<Framing.byte>, now: Time, ghost sys: Sys, ghost keep: nat)
    returns (ok: bool, m: Manager, ghost graves: map<string, seq<Msg>>, ghost deads: map<string, seq<Msg>>)
    requires Framing.Faithful(codec)
    ensures fresh(m) && fresh(m.wal) && m.wal.Valid()
    ensures ok <==> !Refused(ReadAll(Framing.Scan(codec, bytes).recs))
    ensures ok ==>
              var log := Framing.Scan(codec, bytes).recs;
              && m.queues.Keys == graves.Keys == ReadAll(log).queues.Keys
              && forall n :: n in m.queues ==> m.Restarted(m.queues[n], graves[n], log, n, now, sys, keep)
    ensures Fits(sys, keep, Framing.Scan(codec, bytes).recs, now) ==>
              && ok && Can(sys, Crash(keep, now, deads)) && m.Shows(Next(sys, Crash(keep, now, deads)))
              && forall n :: n in m.queues ==> m.Mine(n)
  {
    hide Good, Can, Next, Framing.Scan, Framing.Faithful, L.MaxEpoch, ReadAll, Refused, Cut;
    hide WAL.Valid, WAL.AtPath, Manager.Shows, Manager.Mine, Manager.Restarted;
    var w := new WAL(codec, bytes);
    var s := Framing.ScanLoop(codec, bytes);
    m := new Manager(w);
    OpenedFile(w, s.recs);
    FitsLength(sys, keep, s.recs, now);
    ok, graves, deads := m.Recover(s.recs, now, sys, keep);
  }

  lemma FitsLength(sys: Sys, keep: nat, log: seq<Record>, now: Time)
    ensures Fits(sys, keep, log, now) ==> |log| == keep
  {
    hide Good;
  }

  lemma OpenedFile(w: WAL, log: seq<Record>)
    requires w.recs == [log] && w.f == w.path == 0 && !w.failed && w.unacked == 0 && w.synced == |log|
    ensures w.AtPath() == Disk(log, [], |log|, false)
  {
  }

  lemma {:induction false} PrintsNoEpoch(lives: map<string, Life>, names: seq<string>, orders: map<string, seq<Msg>>)
    requires Covers(names, orders, lives)
    ensures forall rec :: rec in Printout(lives, names, orders) ==> rec.op != OpEpoch
  {
    if names != [] {
      var n := names[|names| - 1];
      assert n in names && forall k :: k in names[..|names| - 1] ==> k in names;
      PrintsNoEpoch(lives, names[..|names| - 1], orders);
      EmitsNoEpoch(lives[n].state.mem.cfg.name, orders[n]);
      EmitsNoEpoch(lives[n].state.mem.cfg.name, lives[n].state.mem.dlq);
    }
  }

  lemma {:induction false} EmitsNoEpoch(name: string, ms: seq<Msg>)
    ensures forall rec :: rec in Emit(name, ms) || rec in EmitDead(name, ms) ==> rec.op != OpEpoch
  {
    if ms != [] {
      EmitsNoEpoch(name, ms[..|ms| - 1]);
    }
  }

  ghost predicate CanCompact(s: State, order: seq<Msg>) {
    !s.disk.latched && Lists(order, s.mem.ready, s.mem.delayed, s.mem.inflight)
  }

  lemma CompactIsQuiet(s: State, order: seq<Msg>)
    requires CanCompact(s, order)
    ensures Enabled(s, Model.Compact(order)) && Step(s, Model.Compact(order)).mem == s.mem
    ensures !Step(s, Model.Compact(order)).disk.latched
  {
    hide Lists, LiveRecords;
  }

  ghost predicate Covers(names: seq<string>, orders: map<string, seq<Msg>>, lives: map<string, Life>) {
    forall n :: n in names ==> n in lives && n in orders
  }

  /** orders says, for each of the names, in which order its messages are printed. */
  ghost predicate Listing(names: seq<string>, orders: map<string, seq<Msg>>, lives: map<string, Life>) {
    && (forall n :: n in orders <==> n in names) && Covers(names, orders, lives)
    && forall n :: n in names ==>
         var mem := lives[n].state.mem; Lists(orders[n], mem.ready, mem.delayed, mem.inflight)
  }

  lemma ListingListable(names: seq<string>, orders: map<string, seq<Msg>>, lives: map<string, Life>)
    requires Listing(names, orders, lives) && forall n :: n in names <==> n in lives
    requires forall i, j :: 0 <= i < j < |names| ==> names[i] != names[j]
    ensures Covers(names, orders, lives) && Listable(lives, names, orders)
  {
    hide Lists;
  }

  lemma NoListing(lives: map<string, Life>)
    ensures Listing([], map[], lives)
  {
  }

  lemma {:induction false} PrintoutSame(lives: map<string, Life>, names: seq<string>,
                                        a: map<string, seq<Msg>>, b: map<string, seq<Msg>>)
    requires Covers(names, a, lives) && Covers(names, b, lives) && forall n :: n in names ==> a[n] == b[n]
    ensures Printout(lives, names, a) == Printout(lives, names, b)
  {
    if names != [] {
      assert names[|names| - 1] in names && forall n :: n in names[..|names| - 1] ==> n in names;
      PrintoutSame(lives, names[..|names| - 1], a, b);
    }
  }

  lemma ListMore(lives: map<string, Life>, names: seq<string>, orders: map<string, seq<Msg>>,
                 n: string, order: seq<Msg>)
    requires Listing(names, orders, lives) && n !in names && n in lives
    requires var mem := lives[n].state.mem; Lists(order, mem.ready, mem.delayed, mem.inflight)
    ensures Listing(names + [n], orders[n := order], lives) && Covers(names + [n], orders[n := order], lives)
  {
    hide Lists;
  }

  lemma PrintMore(lives: map<string, Life>, names: seq<string>, orders: map<string, seq<Msg>>,
                  n: string, order: seq<Msg>)
    requires Covers(names, orders, lives) && n !in names && n in lives
    requires Covers(names + [n], orders[n := order], lives)
    ensures Printout(lives, names + [n], orders[n := order]) ==
            Printout(lives, names, orders) + Print(lives[n].state.mem, order)
  {
    hide Print;
    PrintoutSame(lives, names, orders, orders[n := order]);
    assert (names + [n])[..|names|] == names;
  }

  lemma {:induction false} LaterEpochs(a: seq<Record>, b: seq<Record>)
    ensures L.MaxEpoch(b) <= L.MaxEpoch(a + b)
  {
    if b != [] {
      LaterEpochs(a, b[..|b| - 1]);
      assert (a + b)[..|a + b| - 1] == a + b[..|b| - 1];
    }
  }

  /** A bookmark lies where whole frames end; a scan from there reads the records
      that follow, and no epoch that the log does not know. */
  lemma BoundaryScan(c: Framing.Codec, bytes: seq<Framing.byte>, off: nat, recs: seq<Record>)
    requires off <= |bytes| && Framing.Scan(c, bytes) == Framing.Scanned(recs, |bytes|, true)
    requires Framing.Scan(c, bytes[..off]).clean
    ensures var before, after := Framing.Scan(c, bytes[..off]).recs, Framing.Scan(c, bytes[off..]);
            after.clean && recs == before + after.recs && L.MaxEpoch(after.recs) <= L.MaxEpoch(recs)
  {
    hide Framing.Scan;
    Framing.ScanConcat(c, bytes[..off], bytes[off..]);
    assert bytes == bytes[..off] + bytes[off..];
    LaterEpochs(Framing.Scan(c, bytes[..off]).recs, Framing.Scan(c, bytes[off..]).recs);
  }
}
