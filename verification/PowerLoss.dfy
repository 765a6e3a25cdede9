/** Crashes that take more than a process with them. A restart after a crash reads
    what survived, but flushes nothing unless it repairs the file
    (queue/wal.go:193-201, 282-294). If the machine then loses power before the next
    fsync, the file may fall back behind what the restart had read. */
module PowerLoss {
  import opened Msgs
  import opened Model
  import opened SharedLog
  import opened Systems

  /** The action ends with an fsync of the file. */
  predicate Flushes(a: Action) {
    || a.Sync? || a.CompactAll? || (a.Create? && a.o == Ok) || (a.On? && Fate(a.e) == Some(Ok))
  }

  /** How many records of the file an fsync has covered. Restarts do not count. */
  ghost function Flushed(run: seq<Action>): nat
    requires Runs(run)
  {
    if run == [] then 0
    else if Flushes(run[|run| - 1]) then After(run).file.synced
    else Flushed(run[..|run| - 1])
  }

  /** Without an fsync, the file keeps what an fsync has covered before, and only a
      restart counts more as covered. */
  lemma Unflushed(sys: Sys, a: Action, keep: nat)
    requires Good(sys) && Can(sys, a) && !Flushes(a) && keep < Next(sys, a).file.synced
    ensures !a.Crash? ==> Next(sys, a).file.synced == sys.file.synced
    ensures keep <= |sys.file.Written()| && keep <= |Next(sys, a).file.Written()|
    ensures Cut(Next(sys, a).file, keep) == Cut(sys.file, keep)
  {
    hide Linked, Owned, Unborn, Enabled, Step, ReadAll, Refused, Restarted, Neighbours;
    match a
    case Create(cfg, _, o) =>
    case On(n, e) => OnUnflushed(sys, n, e, keep);
    case Latch =>
    case Crash(_, _, _) =>
  }

  lemma OnUnflushed(sys: Sys, n: string, e: Event, keep: nat)
    requires Good(sys) && Can(sys, On(n, e)) && Fate(e) != Some(Ok) && keep < sys.file.synced
    ensures var file := FileAfter(sys.file, sys.queues[n], e);
            && file.synced == sys.file.synced && keep <= |sys.file.Written()| && keep <= |file.Written()|
            && Cut(file, keep) == Cut(sys.file, keep)
  {
    hide Linked, Owned, Unborn, Enabled, Step, Logs;
    var file := FileAfter(sys.file, sys.queues[n], e);
    assert file.log[..keep] == sys.file.log[..keep];
    assert file.Written()[..keep] == file.log[..keep] && sys.file.Written()[..keep] == sys.file.log[..keep];
  }

  /** Nothing is promised without an fsync. */
  lemma NothingPromised(run: seq<Action>, n: string)
    requires Runs(run) && run != [] && !Flushes(run[|run| - 1])
    ensures var front := run[..|run| - 1];
            && AcceptedBy(run, n) == AcceptedBy(front, n) && AckedBy(run, n, true) == AckedBy(front, n, true)
            && AckedBy(front, n, false) <= AckedBy(run, n, false)
  {
    hide Can, Next, After;
  }

  /** Whatever happened after the moment k, clients were told the same by then. */
  ghost predicate SameTold(run: seq<Action>, k: nat, n: string)
    requires Runs(run) && k <= |run| && Runs(run[..k])
  {
    && AcceptedBy(run[..k], n) == AcceptedBy(run, n) && AckedBy(run[..k], n, true) == AckedBy(run, n, true)
    && AckedBy(run[..k], n, false) <= AckedBy(run, n, false)
  }

  /** A loss of power, whatever restarts came before it, keeps some prefix of the
      file that covers the last fsync. That is a crash at an earlier moment of the
      run, by which clients had been told all they were told. So every statement
      about crashes, and about what follows them, holds for it. */
  lemma {:induction false} PowerLossIsCrash(run: seq<Action>, keep: nat) returns (k: nat)
    requires Runs(run) && Flushed(run) <= keep <= |After(run).file.Written()|
    ensures k <= |run| && Runs(run[..k])
    ensures var file := After(run[..k]).file;
            && file.synced <= keep <= |file.Written()| && Cut(file, keep) == Cut(After(run).file, keep)
    ensures forall n :: SameTold(run, k, n)
  {
    SystemIsGood(run);
    if After(run).file.synced <= keep {
      k := |run|;
      assert run[..k] == run;
    } else {
      hide Good, Can, Next, AcceptedBy, AckedBy, SameTold;
      var front, a := run[..|run| - 1], run[|run| - 1];
      SystemIsGood(front);
      Unflushed(After(front), a, keep);
      k := PowerLossIsCrash(front, keep);
      assert front[..k] == run[..k];
      forall n
        ensures SameTold(run, k, n)
      {
        NothingPromised(run, n);
        ToldEarlier(run, k, n);
      }
    }
  }

  lemma ToldEarlier(run: seq<Action>, k: nat, n: string)
    requires Runs(run) && run != [] && k < |run| && Runs(run[..|run| - 1]) && Runs(run[..k])
    requires run[..|run| - 1][..k] == run[..k] && SameTold(run[..|run| - 1], k, n)
    requires var front := run[..|run| - 1];
             && AcceptedBy(run, n) == AcceptedBy(front, n) && AckedBy(run, n, true) == AckedBy(front, n, true)
             && AckedBy(front, n, false) <= AckedBy(run, n, false)
    ensures SameTold(run, k, n)
  {
    hide AcceptedBy, AckedBy;
  }

  /** After a loss of power at any point of any run, restarts included, recovery does
      not refuse, and keeps the promises of the whole run: it has no message whose
      Ack succeeded, and of those whose Enqueue succeeded and whose ack was never
      written it has all that no compaction erased. A queue that is gone had none. */
  lemma PowerLossKeepsPromises(run: seq<Action>, keep: nat) returns (k: nat)
    requires Runs(run) && Flushed(run) <= keep <= |After(run).file.Written()|
    ensures k <= |run| && Runs(run[..k])
    ensures var t := ReadAll(Cut(After(run).file, keep));
            && !Refused(t)
            && (forall n :: n in After(run[..k]).queues ==>
                  && View(t, n).cfg == Some(After(run[..k]).queues[n].cfg)
                  && AckedBy(run, n, true) !! View(t, n).live.Keys
                  && forall id :: id in AcceptedBy(run, n) - AckedBy(run, n, false) ==>
                       (id in View(t, n).live <==> !ErasedFrom(After(run[..k]).queues[n], id)))
            && (forall n :: n !in After(run[..k]).queues ==> AcceptedBy(run, n) == {})
  {
    hide Good, Can, Next, AcceptedBy, AckedBy, View, ReadAll, Refused, Flushed, ErasedFrom, Cut;
    k := PowerLossIsCrash(run, keep);
    var early := run[..k];
    SystemIsGood(early);
    NeverRefused(After(early), keep);
    forall n | n in After(early).queues
      ensures var t := ReadAll(Cut(After(run).file, keep));
              && View(t, n).cfg == Some(After(early).queues[n].cfg)
              && AckedBy(run, n, true) !! View(t, n).live.Keys
              && forall id :: id in AcceptedBy(run, n) - AckedBy(run, n, false) ==>
                   (id in View(t, n).live <==> !ErasedFrom(After(early).queues[n], id))
    {
      QueueKeepsPromises(early, keep, n);
      assert SameTold(run, k, n);
    }
    forall n | n !in After(early).queues
      ensures AcceptedBy(run, n) == {}
    {
      RunTells(early, n);
      assert SameTold(run, k, n);
    }
  }
}
