/** The values that move through the queue: messages, queue configuration and
    write-ahead log records (queue/msg.go, queue/queue.go, queue/wal.go). */
module Msgs {

  datatype Option<+T> = None | Some(value: T)

  /** Message identifiers and lease receipts; both come from the same generator. */
  type Id = string

  /** Nanoseconds since Go's zero time. */
  type Time = int

  const ZERO_TIME: Time := 0
  const NO_RECEIPT: Id := ""

  /** A mode is a string in the log, so an unknown one can reach the comparator. */
  type Mode = string

  const FIFO: Mode := "fifo"
  const LIFO: Mode := "lifo"

  datatype Msg = Msg(
    id: Id,
    body: string,
    priority: int,
    seqNo: nat,
    visibleAt: Time,
    enqueuedAt: Time,
    attempts: int,
    receipt: Id,
    leaseExpiry: Time)
  {
    /** The delay gate. */
    predicate Ready(now: Time) {
      visibleAt <= now
    }

    /** The message with its lease wiped. */
    function Unleased(): Msg {
      this.(receipt := NO_RECEIPT, leaseExpiry := ZERO_TIME)
    }

    /** The message as one more delivery leaves it. */
    function Leased(token: Id, expiry: Time): Msg {
      this.(attempts := attempts + 1, receipt := token, leaseExpiry := expiry)
    }
  }

  datatype Config = Config(
    name: string,
    mode: Mode,
    priority: bool,
    maxAttempts: int,
    visibilityTimeoutMS: int)
  {
    /** The lease duration used when the consumer names none, in nanoseconds. */
    function Visibility(): int {
      visibilityTimeoutMS * 1_000_000
    }

    /** The defaults New fills in. */
    function Normalized(): Config {
      var c := if mode == "" then this.(mode := FIFO) else this;
      if visibilityTimeoutMS <= 0 then c.(visibilityTimeoutMS := 30000) else c
    }

    /** Has this message used up its deliveries? */
    predicate Exhausted(m: Msg) {
      maxAttempts > 0 && m.attempts >= maxAttempts
    }
  }

  datatype Op = OpCreateQueue | OpEnqueue | OpLease | OpAck | OpNack | OpDLQ | OpReplay | OpEpoch

  datatype Record = Record(
    op: Op,
    queue: string,
    id: Id,
    msg: Option<Msg>,
    config: Option<Config>,
    epoch: nat,
    seqNo: nat)

  function CreateRecord(cfg: Config, seqNo: nat): Record {
    Record(OpCreateQueue, cfg.name, "", None, Some(cfg), 0, seqNo)
  }

  function EnqueueRecord(name: string, m: Msg): Record {
    Record(OpEnqueue, name, "", Some(m), None, 0, 0)
  }

  function LeaseRecord(name: string, m: Msg): Record {
    Record(OpLease, name, "", Some(m), None, 0, 0)
  }

  function AckRecord(name: string, id: Id): Record {
    Record(OpAck, name, id, None, None, 0, 0)
  }

  function NackRecord(name: string, m: Msg): Record {
    Record(OpNack, name, m.id, Some(m), None, 0, 0)
  }

  function DeadRecord(name: string, id: Id): Record {
    Record(OpDLQ, name, id, None, None, 0, 0)
  }

  function ReplayRecord(name: string, id: Id): Record {
    Record(OpReplay, name, id, None, None, 0, 0)
  }

  function EpochRecord(epoch: nat): Record {
    Record(OpEpoch, "", "", None, None, epoch, 0)
  }
}
