/** One log for all queues: recovery reads it in one pass and rebuilds each queue
    as if it had a log of its own (recover, queue/manager.go:78-192). */
module SharedLog {
  import opened Msgs
  import opened Recovery

  /** What recover keeps for one name while it reads. */
  datatype Pending = Pending(live: map<Id, Msg>, dlq: set<Id>, maxSeq: nat)

  const NOTHING: Pending := Pending(map[], {}, 0)

  /** The queues created so far, and the staging area of every name met. */
  datatype Tables = Tables(queues: map<string, Config>, pending: map<string, Pending>)

  const BLANK: Tables := Tables(map[], map[])

  /** get: the staging area of a name, made on first use. */
  function Get(t: Tables, name: string): Pending {
    if name in t.pending then t.pending[name] else NOTHING
  }

  function Put(t: Tables, name: string, p: Pending): Tables {
    t.(pending := t.pending[name := p])
  }

  /** One record of the log. */
  function Read(t: Tables, rec: Record): Tables {
    var p := Get(t, rec.queue);
    match rec.op
    case OpCreateQueue =>
      if rec.config == None then t else
        var queues := if rec.queue in t.queues then t.queues else t.queues[rec.queue := rec.config.value.Normalized()];
        Put(t.(queues := queues), rec.queue, p.(maxSeq := Max(p.maxSeq, rec.seqNo)))
    case OpEnqueue =>
      if rec.msg == None then t else
        var m := rec.msg.value;
        Put(t, rec.queue, p.(live := p.live[m.id := m], maxSeq := Max(p.maxSeq, m.seqNo)))
    case OpLease =>
      if rec.msg == None then t else
        var m := rec.msg.value;
        if m.id !in p.live then Put(t, rec.queue, p) else
          Put(t, rec.queue, p.(live := p.live[m.id := p.live[m.id].(attempts := m.attempts)]))
    case OpNack =>
      if rec.msg == None then t else
        var m := rec.msg.value;
        if m.id !in p.live then Put(t, rec.queue, p) else
          Put(t, rec.queue, p.(live := p.live[m.id := p.live[m.id].(attempts := m.attempts, visibleAt := m.visibleAt)]))
    case OpAck => Put(t, rec.queue, p.(live := p.live - {rec.id}, dlq := p.dlq - {rec.id}))
    case OpDLQ => Put(t, rec.queue, p.(dlq := p.dlq + {rec.id}))
    case OpReplay =>
      var live := if rec.id in p.live then p.live[rec.id := p.live[rec.id].(attempts := 0)] else p.live;
      Put(t, rec.queue, p.(dlq := p.dlq - {rec.id}, live := live))
    case OpEpoch => t
  }

  /** The whole log, first record first. */
  function ReadAll(log: seq<Record>): Tables {
    if log == [] then BLANK else Read(ReadAll(log[..|log| - 1]), log[|log| - 1])
  }

  /** The records that name a queue. */
  function Part(log: seq<Record>, name: string): seq<Record> {
    if log == [] then [] else
      var last := log[|log| - 1];
      Part(log[..|log| - 1], name) + if last.queue == name then [last] else []
  }

  /** What the tables say about one name. */
  function View(t: Tables, name: string): Staging {
    var p := Get(t, name);
    Staging(if name in t.queues then Some(t.queues[name]) else None, p.live, p.dlq, p.maxSeq)
  }

  lemma ReadOther(t: Tables, rec: Record, name: string)
    requires rec.queue != name
    ensures View(Read(t, rec), name) == View(t, name)
  {
    hide Max;
  }

  lemma ReadOwnMsg(t: Tables, rec: Record)
    requires rec.op == OpLease || rec.op == OpNack || rec.op == OpEnqueue
    ensures View(Read(t, rec), rec.queue) == Apply(View(t, rec.queue), rec)
  {
    hide Max;
  }

  lemma ReadOwnId(t: Tables, rec: Record)
    requires rec.op == OpAck || rec.op == OpDLQ || rec.op == OpReplay
    ensures View(Read(t, rec), rec.queue) == Apply(View(t, rec.queue), rec)
  {
    hide Max;
  }

  lemma ReadOwnCreate(t: Tables, rec: Record)
    requires rec.op == OpCreateQueue || rec.op == OpEpoch
    ensures View(Read(t, rec), rec.queue) == Apply(View(t, rec.queue), rec)
  {
    hide Max;
  }

  /** A record changes only the view of the name it carries, and as that queue's
      own recovery would. */
  lemma ReadOne(t: Tables, rec: Record, name: string)
    ensures View(Read(t, rec), name) == if rec.queue == name then Apply(View(t, name), rec) else View(t, name)
  {
    hide View, Read, Apply;
    if rec.queue == name {
      match rec.op
      case OpCreateQueue => ReadOwnCreate(t, rec);
      case OpEpoch => ReadOwnCreate(t, rec);
      case OpEnqueue => ReadOwnMsg(t, rec);
      case OpLease => ReadOwnMsg(t, rec);
      case OpNack => ReadOwnMsg(t, rec);
      case _ => ReadOwnId(t, rec);
    } else {
      ReadOther(t, rec, name);
    }
  }

  /** Whatever other queues wrote in between, a queue is recovered from its own
      records alone. */
  lemma {:induction false} QueuesDoNotInterfere(log: seq<Record>, name: string)
    ensures View(ReadAll(log), name) == Replayed(Part(log, name))
  {
    if log != [] {
      var front, rec := log[..|log| - 1], log[|log| - 1];
      QueuesDoNotInterfere(front, name);
      ReadOne(ReadAll(front), rec, name);
      var part := Part(front, name);
      if rec.queue == name {
        assert (part + [rec])[..|part|] == part;
      } else {
        assert part + [] == part;
      }
    }
  }

  /** A queue keeps the config of its first create record, its defaults filled in. */
  lemma {:induction false} FirstCreateCounts(log: seq<Record>, i: nat)
    requires i < |log| && log[i].op == OpCreateQueue && log[i].config.Some?
    requires forall k :: 0 <= k < i ==> !(log[k].op == OpCreateQueue && log[k].config.Some?)
    ensures Replayed(log).cfg == Some(log[i].config.value.Normalized())
  {
    var front := log[..|log| - 1];
    if i < |front| {
      FirstCreateCounts(front, i);
    } else {
      NoCreateNoConfig(front);
    }
  }

  lemma {:induction false} NoCreateNoConfig(log: seq<Record>)
    requires forall k :: 0 <= k < |log| ==> !(log[k].op == OpCreateQueue && log[k].config.Some?)
    ensures Replayed(log).cfg == None
  {
    if log != [] {
      NoCreateNoConfig(log[..|log| - 1]);
    }
  }

  /** recover refuses to start: messages for a queue whose create record is gone. */
  predicate Refused(t: Tables) {
    exists name :: name in t.pending && name !in t.queues &&
                   (t.pending[name].live != map[] || t.pending[name].dlq != {})
  }

  // ---------- parts of logs ----------

  lemma {:induction false} PartConcat(a: seq<Record>, b: seq<Record>, name: string)
    ensures Part(a + b, name) == Part(a, name) + Part(b, name)
  {
    if b == [] {
      assert a + b == a;
    } else {
      var front, last := b[..|b| - 1], b[|b| - 1];
      PartConcat(a, front, name);
      assert (a + b)[..|a + b| - 1] == a + front && (a + b)[|a + b| - 1] == last;
    }
  }

  lemma {:induction false} PartOfOwn(log: seq<Record>, owner: string, name: string)
    requires forall i :: 0 <= i < |log| ==> log[i].queue == owner
    ensures Part(log, name) == if owner == name then log else []
  {
    if log != [] {
      PartOfOwn(log[..|log| - 1], owner, name);
      assert log == log[..|log| - 1] + [log[|log| - 1]];
    }
  }
}
