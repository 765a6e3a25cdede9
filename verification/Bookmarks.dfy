/** The race in Replay between the epoch check and the scan, which no lock joins
    (queue/manager.go:278-303). */
module Bookmarks {
  import opened Msgs
  import opened Framing
  import opened Recovery
  import L = LogRuns
  import opened Model

  /** A log that one compaction rewrites, between the check and the scan of a Replay
      whose bookmark is the end of the old file. Where that offset falls behind the
      k-th frame of the new file, the scan returns the records from there on, all
      printed by the compaction, although nothing was appended since. */
  lemma CompactionBetweenCheckAndScan(c: Codec, log: seq<Record>, live: seq<Record>, k: nat)
    requires Faithful(c) && Encodable(c, log) && Encodable(c, [EpochRecord(1)] + live) && k <= |live| + 1
    requires log != [] && forall rec :: rec in log + live ==> rec.op != OpEpoch
    requires |EncodeAll(c, log)| == |EncodeAll(c, ([EpochRecord(1)] + live)[..k])|
    ensures var init := L.Log([log], 0, 0, |log|, 0, false);
            var offset := |EncodeAll(c, log)|;
            && L.Ok(init) && L.Honest(init) && L.Can(init, L.Compact(live)) && L.Appended([L.Compact(live)]) == []
            && offset > 0 && !L.Stale(init, L.Bookmark(0, offset))
            && var l := L.After(init, L.Compact(live));
            && Encodable(c, l.files[l.f]) && offset <= |EncodeAll(c, l.files[l.f])|
            && Scan(c, EncodeAll(c, l.files[l.f])[offset..]) ==
               Scanned(([EpochRecord(1)] + live)[k..], |EncodeAll(c, l.files[l.f])| - offset, true)
  {
    hide Encode, Scan;
    var recs := [EpochRecord(1)] + live;
    var head, tail := recs[..k], recs[k..];
    assert recs == head + tail;
    EncodeConcat(c, head, tail);
    ScanClean(c, tail);
    assert (EncodeAll(c, head) + EncodeAll(c, tail))[|EncodeAll(c, head)|..] == EncodeAll(c, tail);
    NoEpoch(log);
    Frames(c, log);
    var run := [L.Compact(live)];
    assert run[..0] == [];
  }

  lemma {:induction false} NoEpoch(log: seq<Record>)
    requires forall rec :: rec in log ==> rec.op != OpEpoch
    ensures L.MaxEpoch(log) == 0
  {
    if log != [] {
      assert log[|log| - 1] in log && forall rec :: rec in log[..|log| - 1] ==> rec in log;
      NoEpoch(log[..|log| - 1]);
    }
  }

  lemma Frames(c: Codec, log: seq<Record>)
    requires Faithful(c) && Encodable(c, log) && log != []
    ensures |EncodeAll(c, log)| > 0
  {
    assert |Encode(c, log[0]).value| > 0;
  }

  // ---------- an instance ----------

  const CFG: Config := Config("q", FIFO, false, 0, 30000)
  const START: State := Fresh(CFG, 1)
  const SENT: Event := Enqueue("a", "hello", 0, 0, Ok)
  const MSG: Msg := Msg("a", "hello", 0, 1, 1, 1, 0, NO_RECEIPT, ZERO_TIME)

  /** What the manager has written, and what it prints when it compacts. */
  const LOG: seq<Record> := [CreateRecord(CFG, 0), EnqueueRecord("q", MSG)]
  const LIVE: seq<Record> := [CreateRecord(CFG, 1), EnqueueRecord("q", MSG)]

  /** One letter for each record of the instance: frames of equal length. */
  function Letter(rec: Record): Option<seq<byte>> {
    if rec == CreateRecord(CFG, 0) then Some([65])
    else if rec == EnqueueRecord("q", MSG) then Some([66])
    else if rec == CreateRecord(CFG, 1) then Some([67])
    else if rec == EpochRecord(1) then Some([68])
    else None
  }

  function Spelled(body: seq<byte>): Option<Record> {
    if body == [65] then Some(CreateRecord(CFG, 0))
    else if body == [66] then Some(EnqueueRecord("q", MSG))
    else if body == [67] then Some(CreateRecord(CFG, 1))
    else if body == [68] then Some(EpochRecord(1))
    else None
  }

  const LETTERS: Codec := Codec(rec => Letter(rec), body => Spelled(body), body => 0)

  lemma LettersAreFaithful()
    ensures Faithful(LETTERS)
  {
  }

  /** The records are those of a run: a queue is created, a message is enqueued, and
      the queue is compacted. */
  lemma TheRun()
    ensures Enabled(START, SENT)
    ensures var s := Step(START, SENT);
            && s.disk.log == LOG && Enabled(s, Compact([MSG])) && Step(s, Compact([MSG])).disk.log == LIVE
  {
    assert NewMsg(START, SENT) == MSG;
    var s := Step(START, SENT);
    assert s.mem.ready == map["a" := MSG];
    assert Emit("q", [MSG]) == [EnqueueRecord("q", MSG)] by {
      assert [MSG][..0] == [] && Emit("q", []) == [];
    }
    assert EmitDead("q", []) == [];
  }

  lemma EqualFrames()
    requires Faithful(LETTERS)
    ensures var new' := [EpochRecord(1)] + LIVE;
            && Encodable(LETTERS, LOG) && Encodable(LETTERS, new')
            && |EncodeAll(LETTERS, LOG)| == |EncodeAll(LETTERS, new'[..2])|
            && new'[2..] == [EnqueueRecord("q", MSG)]
  {
    assert LOG[1..] == [LOG[1]] && LOG[1..][1..] == [];
    var front := ([EpochRecord(1)] + LIVE)[..2];
    assert front == [EpochRecord(1), CreateRecord(CFG, 1)];
    assert front[1..] == [front[1]] && front[1..][1..] == [];
  }

  /** So the race is real: in a run that creates a queue, enqueues a message, issues
      a bookmark and compacts, a scan from the bookmark finds the message that was
      enqueued before it, and Replay would publish it again. */
  lemma ReplayFindsOldMessage()
    ensures Faithful(LETTERS) && Encodable(LETTERS, LOG) && Enabled(START, SENT)
    ensures var s := Step(START, SENT);
            && s.disk.log == LOG && Enabled(s, Compact([MSG])) && Step(s, Compact([MSG])).disk.log == LIVE
    ensures var init := L.Log([LOG], 0, 0, |LOG|, 0, false);
            var offset := |EncodeAll(LETTERS, LOG)|;
            && L.Ok(init) && L.Honest(init) && L.Can(init, L.Compact(LIVE)) && L.Appended([L.Compact(LIVE)]) == []
            && offset > 0 && !L.Stale(init, L.Bookmark(0, offset))
            && var l := L.After(init, L.Compact(LIVE));
            && Encodable(LETTERS, l.files[l.f]) && offset <= |EncodeAll(LETTERS, l.files[l.f])|
            && Scan(LETTERS, EncodeAll(LETTERS, l.files[l.f])[offset..]).recs == [EnqueueRecord("q", MSG)]
  {
    hide Encode, Scan, EncodeAll, L.MaxEpoch, Enabled, Step;
    LettersAreFaithful();
    TheRun();
    EqualFrames();
    CompactionBetweenCheckAndScan(LETTERS, LOG, LIVE, 2);
  }
}
