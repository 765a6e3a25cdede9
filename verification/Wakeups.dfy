/** No lost wake-up: a receiver that found nothing and still waits on the current
    wake channel has missed nothing, except in one case after a failed append. */
module Wakeups {
  import opened Msgs
  import opened Model

  /** For a receiver that captured generation g: as long as that channel has not
      been closed, ready is empty or a signal is still owed. */
  ghost predicate Covered(mem: Memory, g: nat) {
    g <= mem.wake && (mem.wake == g ==> mem.ready == map[] || mem.owed)
  }

  lemma RetryCovers(s: State, m: Msg, now: Time, delay: int, o: Outcome, g: nat)
    requires Covered(s.mem, g)
    ensures Covered(Retry(s, m, now, delay, o).mem, g)
  {
  }

  lemma CoveredStep(s: State, e: Event, g: nat)
    requires Covered(s.mem, g) && Enabled(s, e) && !e.Restart?
    ensures Covered(Step(s, e).mem, g)
  {
    hide Retry;
    match e
    case Nack(r, delay, o) =>
      var m := s.mem.inflight[s.mem.leases[r]];
      RetryCovers(s.(mem := EndLease(s.mem, m).(nacked := s.mem.nacked + 1)), m.Unleased(), s.clock, delay, o, g);
    case Expire(id, now, o) =>
      var m := s.mem.inflight[id];
      RetryCovers(s.(mem := EndLease(s.mem, m).(expired := s.mem.expired + 1)), m.Unleased(), now, 0, o, g);
    case _ =>
  }

  lemma {:induction false} CoveredRun(init: State, run: seq<Event>, g: nat)
    requires Legal(init, run) && Covered(init.mem, g) && forall i :: 0 <= i < |run| ==> !run[i].Restart?
    ensures Covered(Final(init, run).mem, g)
  {
    if run != [] {
      hide Covered, Step, Enabled;
      CoveredRun(init, run[..|run| - 1], g);
      CoveredStep(Final(init, run[..|run| - 1]), run[|run| - 1], g);
    }
  }

  /** A receiver captures the wake channel, pumps the queue, finds ready empty and
      lets go of the lock. Whatever the process does after that, in any state where
      no signal is owed its channel has been closed or ready is still empty. */
  lemma NoLostWakeUp(init: State, pump: seq<Event>, after: seq<Event>)
    requires Legal(init, pump) && Legal(Final(init, pump), after)
    requires forall i :: 0 <= i < |pump| ==> !pump[i].Restart?
    requires forall i :: 0 <= i < |after| ==> !after[i].Restart?
    requires Final(init, pump).mem.ready == map[]
    requires !Final(Final(init, pump), after).mem.owed
    ensures var g := init.mem.wake; var now := Final(Final(init, pump), after).mem;
            now.wake == g ==> now.ready == map[]
  {
    WakeGrows(init, pump);
    CoveredRun(Final(init, pump), after, Final(init, pump).mem.wake);
    WakeGrows(Final(init, pump), after);
  }

  lemma {:induction false} WakeGrows(init: State, run: seq<Event>)
    requires Legal(init, run) && forall i :: 0 <= i < |run| ==> !run[i].Restart?
    ensures init.mem.wake <= Final(init, run).mem.wake
  {
    if run != [] {
      hide Step, Enabled;
      WakeGrows(init, run[..|run| - 1]);
      WakeStep(Final(init, run[..|run| - 1]), run[|run| - 1]);
    }
  }

  lemma WakeStep(s: State, e: Event)
    requires Enabled(s, e) && !e.Restart?
    ensures s.mem.wake <= Step(s, e).mem.wake
  {
    hide Retry;
    match e
    case Nack(r, delay, o) =>
      var m := s.mem.inflight[s.mem.leases[r]];
      RetryFrame(s.(mem := EndLease(s.mem, m).(nacked := s.mem.nacked + 1)), m.Unleased(), s.clock, delay, o);
    case Expire(id, now, o) =>
      var m := s.mem.inflight[id];
      RetryFrame(s.(mem := EndLease(s.mem, m).(expired := s.mem.expired + 1)), m.Unleased(), now, 0, o);
    case _ =>
  }

  /** Steps that may put a message into ready. */
  predicate Fills(e: Event) {
    || (e.Enqueue? && e.o == Ok) || e.Promote? || e.Expire? || e.Nack? || (e.ReplayHead? && e.o == Ok)
  }

  /** Only such a step can make a signal owed. */
  lemma OwesOnlyBy(s: State, e: Event)
    requires Enabled(s, e) && !s.mem.owed && Step(s, e).mem.owed
    ensures Fills(e)
  {
    hide Retry;
  }

  /** Every step that may fill ready is followed by a signal, as in every operation
      that returns without an error. */
  ghost predicate Signalled(run: seq<Event>) {
    forall i :: 0 <= i < |run| && Fills(run[i]) ==> exists j :: i < j < |run| && run[j].Signal?
  }

  lemma SignalledFront(run: seq<Event>)
    requires run != [] && Signalled(run) && !run[|run| - 1].Signal?
    ensures Signalled(run[..|run| - 1]) && !Fills(run[|run| - 1])
  {
    var front := run[..|run| - 1];
    forall i | 0 <= i < |front| && Fills(front[i])
      ensures exists j :: i < j < |front| && front[j].Signal?
    {
      assert run[i] == front[i];
      var j :| i < j < |run| && run[j].Signal?;
      assert j < |front| && front[j].Signal?;
    }
  }

  lemma {:induction false} SignalledOwesNothing(init: State, run: seq<Event>)
    requires Legal(init, run) && Signalled(run) && !init.mem.owed
    ensures !Final(init, run).mem.owed
  {
    if run != [] && !run[|run| - 1].Signal? {
      hide Step, Enabled, Signalled;
      SignalledFront(run);
      SignalledOwesNothing(init, run[..|run| - 1]);
      if Final(init, run).mem.owed {
        OwesOnlyBy(Final(init, run[..|run| - 1]), run[|run| - 1]);
      }
    }
  }

  /** So when the operations of the process all signal what they fill, a parked
      receiver whose channel is still open has missed nothing, although it captured
      the channel before pumping and let go of the lock before parking. */
  lemma ParkedReceiverMissesNothing(init: State, pump: seq<Event>, after: seq<Event>)
    requires Legal(init, pump) && Legal(Final(init, pump), after) && !init.mem.owed
    requires Signalled(pump) && Signalled(after)
    requires forall i :: 0 <= i < |pump| ==> !pump[i].Restart?
    requires forall i :: 0 <= i < |after| ==> !after[i].Restart?
    requires Final(init, pump).mem.ready == map[]
    ensures var now := Final(Final(init, pump), after).mem;
            now.wake == init.mem.wake ==> now.ready == map[]
  {
    hide Signalled;
    SignalledOwesNothing(init, pump);
    SignalledOwesNothing(Final(init, pump), after);
    NoLostWakeUp(init, pump, after);
  }

  // ---------- the one operation that can leave a signal owed ----------

  /** The whole of Nack: it signals unless the retry reports an error. */
  ghost function NackCall(s: State, receipt: Id, delay: int, o: Outcome): State
    requires Enabled(s, Nack(receipt, delay, o))
  {
    var t := Step(s, Nack(receipt, delay, o));
    if o == Ok then Step(t, Signal) else t
  }

  /** Nack leaves a signal owed exactly when the message has used up its attempts
      and its dead letter record cannot be made durable: it goes back to ready
      and nobody is told. If ready was empty, it then is not, with every waiting
      receiver's channel still open, in this case and no other. */
  lemma NackOwesExactlyOnDeadFault(s: State, receipt: Id, delay: int, o: Outcome)
    requires Enabled(s, Nack(receipt, delay, o)) && !s.mem.owed
    ensures var t := NackCall(s, receipt, delay, o);
            var fault := o != Ok && s.mem.cfg.Exhausted(s.mem.inflight[s.mem.leases[receipt]]);
            && (t.mem.owed <==> fault)
            && (s.mem.ready == map[] ==> (t.mem.wake == s.mem.wake && t.mem.ready != map[] <==> fault))
  {
    var m, t := s.mem.inflight[s.mem.leases[receipt]], NackCall(s, receipt, delay, o);
    assert o != Ok && s.mem.cfg.Exhausted(m) ==> m.id in t.mem.ready;
  }

  const CFG: Config := Config("q", FIFO, false, 1, 30000)
  const LEASED: seq<Event> := [Enqueue("a", "", 0, 0, Ok), Signal, Lease("a", "r", 10)]

  lemma OneLeased()
    ensures Legal(Fresh(CFG, 0), LEASED)
    ensures var s := Final(Fresh(CFG, 0), LEASED);
            && s.mem.ready == map[] && s.mem.leases == map["r" := "a"] && s.mem.inflight.Keys == {"a"}
            && s.mem.inflight["a"].attempts == 1 && s.mem.cfg == CFG && !s.mem.owed && !s.disk.latched
  {
    OneMore(Fresh(CFG, 0), [], LEASED[0]);
    assert [] + [LEASED[0]] == [LEASED[0]];
    OneMore(Fresh(CFG, 0), [LEASED[0]], Signal);
    assert [LEASED[0]] + [Signal] == [LEASED[0], Signal];
    OneMore(Fresh(CFG, 0), [LEASED[0], Signal], LEASED[2]);
    assert [LEASED[0], Signal] + [LEASED[2]] == LEASED;
  }

  /** That wake-up really gets lost: a receiver finds ready empty, the only message
      is nacked into a dead letter fault, and the receiver's channel stays open
      although ready holds the message. */
  lemma WakeUpLostOnDeadFault()
    ensures Legal(Fresh(CFG, 0), LEASED)
    ensures var s := Final(Fresh(CFG, 0), LEASED);
            && s.mem.ready == map[] && Enabled(s, Nack("r", 0, NotWritten))
            && var t := NackCall(s, "r", 0, NotWritten);
            t.mem.wake == s.mem.wake && t.mem.ready != map[]
  {
    OneLeased();
    var s := Final(Fresh(CFG, 0), LEASED);
    hide Legal, Final;
    var t := NackCall(s, "r", 0, NotWritten);
    assert s.mem.inflight["a"].id in t.mem.ready;
  }
}
