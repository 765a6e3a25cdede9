/** Reading a queue back from its log, and printing it into one
    (recover, restore and liveRecordsLocked in queue/manager.go). */
module Recovery {
  import opened Msgs

  /** What recover keeps for one queue while it reads the log. */
  datatype Staging = Staging(cfg: Option<Config>, live: map<Id, Msg>, dlq: set<Id>, maxSeq: nat)

  const EMPTY: Staging := Staging(None, map[], {}, 0)

  function Max(a: nat, b: nat): nat {
    if a > b then a else b
  }

  /** The switch of recover, for a record that names this queue. */
  function Apply(s: Staging, rec: Record): Staging {
    match rec.op
    case OpCreateQueue =>
      if rec.config == None then s else
        var cfg := if s.cfg == None then Some(rec.config.value.Normalized()) else s.cfg;
        s.(cfg := cfg, maxSeq := Max(s.maxSeq, rec.seqNo))
    case OpEnqueue =>
      if rec.msg == None then s else
        var m := rec.msg.value;
        s.(live := s.live[m.id := m], maxSeq := Max(s.maxSeq, m.seqNo))
    case OpLease =>
      if rec.msg == None || rec.msg.value.id !in s.live then s else
        var m := rec.msg.value;
        s.(live := s.live[m.id := s.live[m.id].(attempts := m.attempts)])
    case OpNack =>
      if rec.msg == None || rec.msg.value.id !in s.live then s else
        var m := rec.msg.value;
        s.(live := s.live[m.id := s.live[m.id].(attempts := m.attempts, visibleAt := m.visibleAt)])
    case OpAck => s.(live := s.live - {rec.id}, dlq := s.dlq - {rec.id})
    case OpDLQ => s.(dlq := s.dlq + {rec.id})
    case OpReplay =>
      if rec.id !in s.live then s.(dlq := s.dlq - {rec.id}) else
        s.(dlq := s.dlq - {rec.id}, live := s.live[rec.id := s.live[rec.id].(attempts := 0)])
    case OpEpoch => s
  }

  /** One queue's records, read from the first to the last. */
  function Replayed(log: seq<Record>): Staging {
    if log == [] then EMPTY else Apply(Replayed(log[..|log| - 1]), log[|log| - 1])
  }

  /** dead lists the dead-lettered messages of r in sequence order, leases wiped. */
  ghost predicate IsDead(r: Staging, dead: seq<Msg>) {
    && (forall i, j :: 0 <= i < j < |dead| ==> dead[i].seqNo < dead[j].seqNo)
    && (forall m :: m in dead ==> m.id in r.live && m.id in r.dlq && m == r.live[m.id].Unleased())
    && (forall id :: id in r.live && id in r.dlq ==> r.live[id].Unleased() in dead)
  }

  /** order lists the messages of three heaps, each once. */
  ghost predicate Lists(order: seq<Msg>, a: map<Id, Msg>, b: map<Id, Msg>, c: map<Id, Msg>) {
    && (forall i, j :: 0 <= i < j < |order| ==> order[i].id != order[j].id)
    && (forall m :: m in order ==>
          || (m.id in a && a[m.id] == m)
          || (m.id in b && b[m.id] == m)
          || (m.id in c && c[m.id] == m))
    && (forall id :: id in a ==> a[id] in order)
    && (forall id :: id in b ==> b[id] in order)
    && (forall id :: id in c ==> c[id] in order)
  }

  /** The enqueue records that reinstall the messages of order. */
  function Emit(name: string, order: seq<Msg>): seq<Record> {
    if order == [] then [] else
      Emit(name, order[..|order| - 1]) + [EnqueueRecord(name, order[|order| - 1].Unleased())]
  }

  /** The records that reinstall the dead letters. */
  function EmitDead(name: string, dlq: seq<Msg>): seq<Record> {
    if dlq == [] then [] else
      var m := dlq[|dlq| - 1];
      EmitDead(name, dlq[..|dlq| - 1]) + [EnqueueRecord(name, m.Unleased()), DeadRecord(name, m.id)]
  }

  /** liveRecordsLocked */
  function LiveRecords(cfg: Config, seqNo: nat, order: seq<Msg>, dlq: seq<Msg>): seq<Record> {
    [CreateRecord(cfg, seqNo)] + Emit(cfg.name, order) + EmitDead(cfg.name, dlq)
  }
}
