/** The shared log over its whole life: appends, compactions, crashes, bookmarks
    and the scans that read from them (queue/wal.go, Replay in queue/manager.go).

    Files are looked at as the records fully written to them; module Wal ties
    them to bytes. A handle is the index of a file. */
module LogRuns {
  import opened Msgs
  import opened Framing

  datatype Log = Log(
    files: seq<seq<Record>>,  // every file this log ever was, in order of creation
    f: nat,                   // the handle in use
    path: nat,                // the file a restart would open
    synced: nat,              // records of the current file covered by an fsync
    epoch: nat,
    failed: bool)

  datatype Change =
    | Append(rec: Record, sync: bool)   // written, and synced when asked to be
    | SyncFails(rec: Record)            // written, but the fsync failed
    | Compact(live: seq<Record>)        // written aside, synced, renamed and reopened
    | Orphan(live: seq<Record>)         // renamed, but not reopened
    | Restart(keep: nat)                // the file the path names, cut to what survived

  ghost predicate Can(l: Log, c: Change) {
    match c
    case Append(rec, _) => !l.failed && rec.op != OpEpoch
    case SyncFails(rec) => !l.failed && rec.op != OpEpoch
    case Compact(live) => !l.failed && forall r :: r in live ==> r.op != OpEpoch
    case Orphan(live) => !l.failed && forall r :: r in live ==> r.op != OpEpoch
    case Restart(keep) => l.path < |l.files| && SyncedAt(l) <= keep <= |l.files[l.path]|
  }

  /** What is durable of the file the path names; a compacted file is so entirely. */
  ghost function SyncedAt(l: Log): nat
    requires l.path < |l.files|
  {
    if l.path == l.f then l.synced else |l.files[l.path]|
  }

  /** The highest epoch record, as a scan learns it. */
  function MaxEpoch(recs: seq<Record>): nat {
    if recs == [] then 0 else
      var last, front := recs[|recs| - 1], MaxEpoch(recs[..|recs| - 1]);
      if last.op == OpEpoch && last.epoch > front then last.epoch else front
  }

  ghost predicate Ok(l: Log) {
    && l.f < |l.files| && l.path < |l.files| && l.synced <= |l.files[l.f]|
    && (l.path != l.f ==> l.failed)
  }

  /** The epoch in memory is the one the files say. A scan from an offset that is
      no bookmark could read stray bytes as an epoch record and end this. */
  ghost predicate Honest(l: Log)
    requires Ok(l)
  {
    && l.epoch == MaxEpoch(l.files[l.f])
    && (l.path != l.f ==> MaxEpoch(l.files[l.path]) == l.epoch + 1)
    && EpochFirst(l.files[l.f], l.synced) && EpochFirst(l.files[l.path], SyncedAt(l))
  }

  /** Only the first record can be an epoch record, and then it is durable. */
  ghost predicate EpochFirst(recs: seq<Record>, synced: nat) {
    && (forall i :: 0 < i < |recs| ==> recs[i].op != OpEpoch)
    && (recs != [] && recs[0].op == OpEpoch ==> synced >= 1)
  }

  ghost function After(l: Log, c: Change): Log
    requires Ok(l) && Can(l, c)
  {
    match c
    case Append(rec, sync) =>
      var recs := l.files[l.f] + [rec];
      l.(files := l.files[l.f := recs], synced := if sync then |recs| else l.synced)
    case SyncFails(rec) => l.(files := l.files[l.f := l.files[l.f] + [rec]], failed := true)
    case Compact(live) =>
      var recs := [EpochRecord(l.epoch + 1)] + live;
      Log(l.files + [recs], |l.files|, |l.files|, |recs|, l.epoch + 1, false)
    case Orphan(live) =>
      l.(files := l.files + [[EpochRecord(l.epoch + 1)] + live], path := |l.files|, failed := true)
    case Restart(keep) =>
      var recs := l.files[l.path][..keep];
      Log(l.files + [recs], |l.files|, |l.files|, keep, MaxEpoch(recs), false)
  }

  lemma OkKeeps(l: Log, c: Change)
    requires Ok(l) && Can(l, c)
    ensures Ok(After(l, c))
  {
  }

  // ---------- epochs ----------

  lemma {:induction false} EpochOfFirst(recs: seq<Record>, synced: nat)
    requires EpochFirst(recs, synced)
    ensures MaxEpoch(recs) == if recs != [] && recs[0].op == OpEpoch then recs[0].epoch else 0
  {
    if recs != [] {
      var front := recs[..|recs| - 1];
      assert forall i :: 0 <= i < |front| ==> front[i] == recs[i];
      if front != [] {
        EpochOfFirst(front, synced);
      } else {
        assert MaxEpoch(front) == 0;
      }
    }
  }

  lemma PrefixEpoch(recs: seq<Record>, synced: nat, keep: nat)
    requires EpochFirst(recs, synced) && synced <= keep <= |recs|
    ensures EpochFirst(recs[..keep], keep) && MaxEpoch(recs[..keep]) == MaxEpoch(recs)
  {
    EpochOfFirst(recs, synced);
    EpochOfFirst(recs[..keep], keep);
  }

  lemma GrownEpoch(recs: seq<Record>, synced: nat, rec: Record, more: nat)
    requires EpochFirst(recs, synced) && rec.op != OpEpoch && synced <= more
    ensures EpochFirst(recs + [rec], more) && MaxEpoch(recs + [rec]) == MaxEpoch(recs)
  {
    assert (recs + [rec])[..|recs|] == recs;
  }

  lemma CompactedEpoch(n: nat, live: seq<Record>)
    requires forall r :: r in live ==> r.op != OpEpoch
    ensures var recs := [EpochRecord(n)] + live; EpochFirst(recs, |recs|) && MaxEpoch(recs) == n
  {
    EpochOfFirst([EpochRecord(n)] + live, |live| + 1);
  }

  /** Every change keeps the log in order; epochs never fall, and a completed
      compaction raises them. */
  lemma ChangeKeeps(l: Log, c: Change)
    requires Ok(l) && Can(l, c) && Honest(l)
    ensures Ok(After(l, c)) && Honest(After(l, c)) && l.epoch <= After(l, c).epoch
    ensures c.Compact? ==> l.epoch < After(l, c).epoch
    ensures c.Restart? && l.path != l.f ==> l.epoch < After(l, c).epoch
  {
    match c
    case Append(rec, sync) =>
      GrownEpoch(l.files[l.f], l.synced, rec, if sync then |l.files[l.f]| + 1 else l.synced);
    case SyncFails(rec) => GrownEpoch(l.files[l.f], l.synced, rec, l.synced);
    case Compact(live) => CompactedEpoch(l.epoch + 1, live);
    case Orphan(live) => CompactedEpoch(l.epoch + 1, live);
    case Restart(keep) => PrefixEpoch(l.files[l.path], SyncedAt(l), keep);
  }

  // ---------- runs ----------

  ghost predicate Legal(init: Log, run: seq<Change>)
    decreases |run|, 0
  {
    if run == [] then Ok(init) && Honest(init) else
      && Legal(init, run[..|run| - 1])
      && Ok(Final(init, run[..|run| - 1])) && Can(Final(init, run[..|run| - 1]), run[|run| - 1])
  }

  ghost function Final(init: Log, run: seq<Change>): Log
    requires Legal(init, run)
    decreases |run|, 1
  {
    if run == [] then init else After(Final(init, run[..|run| - 1]), run[|run| - 1])
  }

  lemma {:induction false} RunKeeps(init: Log, run: seq<Change>)
    requires Legal(init, run)
    ensures Ok(init) && Ok(Final(init, run)) && Honest(Final(init, run)) && init.epoch <= Final(init, run).epoch
  {
    if run != [] {
      hide Ok, After, Can, Honest;
      RunKeeps(init, run[..|run| - 1]);
      ChangeKeeps(Final(init, run[..|run| - 1]), run[|run| - 1]);
    }
  }

  lemma {:induction false} CompactionRaises(init: Log, run: seq<Change>, i: nat)
    requires Legal(init, run) && i < |run| && run[i].Compact?
    ensures init.epoch < Final(init, run).epoch
  {
    hide Ok, After, Can, Honest;
    var front := run[..|run| - 1];
    RunKeeps(init, front);
    ChangeKeeps(Final(init, front), run[|run| - 1]);
    if i < |front| {
      CompactionRaises(init, front, i);
    }
  }

  // ---------- bookmarks ----------

  datatype Bookmark = Bookmark(epoch: nat, offset: int)

  /** Replay refuses a bookmark of another epoch, unless it names the very start. */
  predicate Stale(l: Log, bm: Bookmark) {
    bm.offset > 0 && bm.epoch != l.epoch
  }

  /** A compaction swaps the file, be it that it completes, or that it renames its
      file into place and a restart opens it. */
  ghost predicate Swaps(l: Log, c: Change) {
    c.Compact? || (c.Restart? && l.path != l.f)
  }

  ghost predicate SwapsFile(init: Log, run: seq<Change>)
    requires Legal(init, run)
  {
    run != [] &&
    (SwapsFile(init, run[..|run| - 1]) || Swaps(Final(init, run[..|run| - 1]), run[|run| - 1]))
  }

  lemma SwapRaises(l: Log, c: Change)
    requires Ok(l) && Can(l, c) && Honest(l)
    ensures After(l, c).epoch > l.epoch <==> Swaps(l, c)
  {
    match c
    case Compact(live) =>
    case Restart(keep) => PrefixEpoch(l.files[l.path], SyncedAt(l), keep);
    case _ =>
  }

  /** Over every run, restarts included, the epoch grows exactly when a compaction
      has swapped the file. */
  lemma {:induction false} EpochGrowsWithSwaps(init: Log, run: seq<Change>)
    requires Legal(init, run)
    ensures init.epoch < Final(init, run).epoch <==> SwapsFile(init, run)
  {
    if run != [] {
      hide Ok, After, Can, Honest, Swaps;
      var front := run[..|run| - 1];
      EpochGrowsWithSwaps(init, front);
      RunKeeps(init, front);
      ChangeKeeps(Final(init, front), run[|run| - 1]);
      SwapRaises(Final(init, front), run[|run| - 1]);
    }
  }

  /** A bookmark into the log is refused by a later epoch check if and only if a
      compaction has swapped the file since it was issued, restarts or not. */
  lemma OldBookmarksAreRefused(init: Log, run: seq<Change>, offset: int)
    requires Legal(init, run) && offset > 0
    ensures Stale(Final(init, run), Bookmark(init.epoch, offset)) <==> SwapsFile(init, run)
  {
    RunKeeps(init, run);
    EpochGrowsWithSwaps(init, run);
  }

  /** A completed compaction swaps the file. So does one that could not reopen its
      file, as soon as the process is restarted. */
  lemma {:induction false} CompactionsSwap(init: Log, run: seq<Change>, i: nat)
    requires Legal(init, run) && i < |run|
    ensures run[i].Compact? ==> SwapsFile(init, run)
    ensures run[i].Orphan? && (exists j :: i < j < |run| && run[j].Restart?) ==> SwapsFile(init, run)
    ensures run[i].Orphan? && !SwapsFile(init, run) ==> Final(init, run).path != Final(init, run).f
  {
    var front, c := run[..|run| - 1], run[|run| - 1];
    RunKeeps(init, front);
    if i < |front| {
      CompactionsSwap(init, front, i);
    }
    if exists j :: i < j < |run| && run[j].Restart? {
      var j :| i < j < |run| && run[j].Restart?;
      assert j < |front| ==> front[j].Restart?;
    }
  }

  // ---------- snapshots ----------

  /** Whatever the log does, a file only ever gets longer at its end, and only
      while it is the current one. */
  lemma FilesOnlyGrow(l: Log, c: Change, h: nat)
    requires Ok(l) && Can(l, c) && h < |l.files|
    ensures h < |After(l, c).files| && l.files[h] <= After(l, c).files[h]
    ensures h != l.f ==> After(l, c).files[h] == l.files[h] && After(l, c).f != h
  {
  }

  lemma {:induction false} SnapshotStays(init: Log, run: seq<Change>, h: nat)
    requires Legal(init, run) && h < |init.files|
    ensures h < |Final(init, run).files| && init.files[h] <= Final(init, run).files[h]
    ensures h != init.f ==> Final(init, run).files[h] == init.files[h] && Final(init, run).f != h
  {
    if run != [] {
      hide Ok, After, Can;
      SnapshotStays(init, run[..|run| - 1], h);
      FilesOnlyGrow(Final(init, run[..|run| - 1]), run[|run| - 1], h);
    }
  }

  /** The records appended by a stretch of a run. */
  ghost function Appended(run: seq<Change>): seq<Record> {
    if run == [] then [] else
      var c := run[|run| - 1];
      Appended(run[..|run| - 1]) + if c.Append? || c.SyncFails? then [c.rec] else []
  }

  /** No compaction swaps the file and the process lives on. */
  ghost predicate SameFile(run: seq<Change>) {
    forall i :: 0 <= i < |run| ==> run[i].Append? || run[i].SyncFails? || run[i].Orphan?
  }

  lemma {:induction false} AppendedSince(init: Log, run: seq<Change>)
    requires Legal(init, run) && SameFile(run)
    ensures Final(init, run).f == init.f < |init.files| && Final(init, run).epoch == init.epoch
    ensures init.f < |Final(init, run).files|
    ensures Final(init, run).files[init.f] == init.files[init.f] + Appended(run)
  {
    if run != [] {
      var front, c := run[..|run| - 1], run[|run| - 1];
      AppendedSince(init, front);
      assert init.files[init.f] + Appended(front) + (if c.Append? || c.SyncFails? then [c.rec] else []) ==
             init.files[init.f] + Appended(run);
    } else {
      assert init.files[init.f] + [] == init.files[init.f];
    }
  }

  /** A scan from a bookmark of the same process reads exactly the records appended
      since, up to the end it captured; and those bytes are still there, through the
      captured handle, after any further changes, compactions included. */
  lemma BookmarkedScan(c: Codec, init: Log, since: seq<Change>, later: seq<Change>)
    requires Ok(init) && Legal(init, since) && SameFile(since) && Legal(Final(init, since), later)
    requires Faithful(c) && Encodable(c, init.files[init.f]) && Encodable(c, Appended(since))
    ensures var start, end := init.files[init.f], init.files[init.f] + Appended(since);
            && init.f < |Final(Final(init, since), later).files|
            && end <= Final(Final(init, since), later).files[init.f]
            && Encodable(c, end) && EncodeAll(c, start) <= EncodeAll(c, end)
            && Scan(c, EncodeAll(c, end)[|EncodeAll(c, start)|..]) ==
               Scanned(Appended(since), |EncodeAll(c, Appended(since))|, true)
  {
    hide Legal, Final, After, Can;
    var start, new' := init.files[init.f], Appended(since);
    AppendedSince(init, since);
    SnapshotStays(Final(init, since), later, init.f);
    EncodeConcat(c, start, new');
    assert (EncodeAll(c, start) + EncodeAll(c, new'))[|EncodeAll(c, start)|..] == EncodeAll(c, new');
    ScanClean(c, new');
  }

  /** Replay checks the epoch and scans in two steps that no lock joins. The scan
      still reads the file the check was about exactly when no compaction and no
      restart came between the two. */
  lemma {:induction false} CheckHoldsForScan(init: Log, between: seq<Change>)
    requires Ok(init) && Legal(init, between)
    ensures Final(init, between).f == init.f <==> SameFile(between)
  {
    if between != [] {
      hide Ok, Can, MaxEpoch;
      var front, c := between[..|between| - 1], between[|between| - 1];
      CheckHoldsForScan(init, front);
      CurrentFile(init);
      SnapshotStays(init, front, init.f);
      HandleMoves(Final(init, front), c, init.f);
      LastOfSameFile(between);
    }
  }

  lemma CurrentFile(l: Log)
    requires Ok(l)
    ensures l.f < |l.files|
  {
  }

  /** The handle moves with compactions and restarts only, and never back. */
  lemma HandleMoves(l: Log, c: Change, h: nat)
    requires Ok(l) && Can(l, c) && h < |l.files|
    ensures After(l, c).f == h <==> l.f == h && (c.Append? || c.SyncFails? || c.Orphan?)
  {
  }

  lemma LastOfSameFile(run: seq<Change>)
    requires run != []
    ensures var c := run[|run| - 1];
            SameFile(run) <==> SameFile(run[..|run| - 1]) && (c.Append? || c.SyncFails? || c.Orphan?)
  {
  }

  /** Within one process the epoch tells: it is the same again if and only if no
      compaction has swapped the file. */
  lemma SameEpochSameFile(init: Log, run: seq<Change>)
    requires Legal(init, run) && forall i :: 0 <= i < |run| ==> !run[i].Restart?
    ensures Final(init, run).epoch == init.epoch <==> SameFile(run)
  {
    if SameFile(run) {
      AppendedSince(init, run);
    } else {
      var i :| 0 <= i < |run| && run[i].Compact?;
      CompactionRaises(init, run, i);
    }
  }

  /** Replay from a nonzero bookmark of this process. Its epoch check passes, and
      what it then scans, from the byte the bookmark names to the end of the file in
      use, is exactly the records appended since the bookmark was issued, provided
      that no compaction came between the check and the scan. */
  lemma ReplayReadsWhatWasAppended(c: Codec, init: Log, since: seq<Change>, between: seq<Change>,
                                   past: seq<byte>, present: seq<byte>)
    requires Legal(init, since) && Legal(Final(init, since), between)
    requires forall i :: 0 <= i < |since| ==> !since[i].Restart?
    requires !Stale(Final(init, since), Bookmark(init.epoch, |past|)) && |past| > 0 && SameFile(between)
    requires var l := Final(Final(init, since), between);
             && init.f < |init.files| && Scan(c, past) == Scanned(init.files[init.f], |past|, true)
             && l.f < |l.files| && Scan(c, present) == Scanned(l.files[l.f], |present|, true)
             && (l.f == init.f ==> past <= present)
    ensures past <= present
    ensures Scan(c, present[|past|..]) == Scanned(Appended(since) + Appended(between), |present| - |past|, true)
  {
    hide Legal, Final, After, Can, Scan, Appended;
    SameEpochSameFile(init, since);
    AppendedSince(init, since);
    AppendedSince(Final(init, since), between);
    ScanConcat(c, past, present[|past|..]);
    assert present == past + present[|past|..];
    var start, more := init.files[init.f], Appended(since) + Appended(between);
    assert start + Appended(since) + Appended(between) == start + more;
    var read := Scan(c, present[|past|..]).recs;
    assert (start + read)[|start|..] == read && (start + more)[|start|..] == more;
  }

  // ---------- bookmarks from before a restart ----------

  /** No restart of the run cuts the file to fewer than n records. */
  ghost predicate CutsAbove(run: seq<Change>, n: nat) {
    forall i :: 0 <= i < |run| && run[i].Restart? ==> n <= run[i].keep
  }

  lemma FileStays(l: Log, c: Change, start: seq<Record>)
    requires Ok(l) && Can(l, c) && Honest(l) && !Swaps(l, c) && start <= l.files[l.f]
    requires c.Restart? ==> |start| <= c.keep
    ensures var l' := After(l, c); l'.f < |l'.files| && start <= l'.files[l'.f]
  {
    hide MaxEpoch, EpochFirst;
  }

  /** Where no compaction has swapped the file and no restart has cut it below the
      bookmark, the epoch check passes rightly: the records that the bookmark was
      issued behind are still there, and the file goes on behind them. */
  lemma {:induction false} BookmarkSurvivesRestarts(init: Log, run: seq<Change>)
    requires Legal(init, run) && init.f < |init.files|
    requires !SwapsFile(init, run) && CutsAbove(run, |init.files[init.f]|)
    ensures var l := Final(init, run);
            l.epoch == init.epoch && l.f < |l.files| && init.files[init.f] <= l.files[l.f]
  {
    if run != [] {
      hide Ok, Can, Honest, Swaps, After;
      var front, c := run[..|run| - 1], run[|run| - 1];
      assert CutsAbove(front, |init.files[init.f]|) && run == front + [c];
      BookmarkSurvivesRestarts(init, front);
      RunKeeps(init, front);
      RunKeeps(init, run);
      EpochGrowsWithSwaps(init, run);
      FileStays(Final(init, front), c, init.files[init.f]);
    }
  }

  /** And a scan from it reads exactly the records behind them. */
  lemma OldBookmarkReads(c: Codec, init: Log, run: seq<Change>, past: seq<byte>, present: seq<byte>)
    requires Legal(init, run) && init.f < |init.files|
    requires !SwapsFile(init, run) && CutsAbove(run, |init.files[init.f]|)
    requires var l := Final(init, run);
             && Scan(c, past) == Scanned(init.files[init.f], |past|, true) && past <= present
             && l.f < |l.files| && Scan(c, present) == Scanned(l.files[l.f], |present|, true)
    ensures var l, n := Final(init, run), |init.files[init.f]|;
            && !Stale(l, Bookmark(init.epoch, |past|)) && n <= |l.files[l.f]|
            && Scan(c, present[|past|..]) == Scanned(l.files[l.f][n..], |present| - |past|, true)
  {
    hide Legal, Final, SwapsFile, CutsAbove, Scan;
    BookmarkSurvivesRestarts(init, run);
    ScanConcat(c, past, present[|past|..]);
    assert present == past + present[|past|..];
    var start, read := init.files[init.f], Scan(c, present[|past|..]).recs;
    assert (start + read)[|start|..] == read;
  }

  /** A restart that loses records behind which a bookmark was issued leaves the
      epoch as it is. The check passes, although the file says something else there:
      a lease record was lost, and another record took its place. */
  lemma CutBelowBookmark(a: Record, lease: Record, b: Record)
    requires a.op != OpEpoch && lease.op == OpLease && b.op != OpEpoch && b != lease
    ensures var init, run := Log([[a, lease]], 0, 0, 1, 0, false), [Restart(1), Append(b, true)];
            && Legal(init, run) && (forall offset :: !Stale(Final(init, run), Bookmark(init.epoch, offset)))
            && var l := Final(init, run);
            l.f < |l.files| && l.files[l.f] == [a, b] && !(init.files[init.f] <= l.files[l.f])
  {
    var init := Log([[a, lease]], 0, 0, 1, 0, false);
    var run := [Restart(1), Append(b, true)];
    assert MaxEpoch([a]) == 0 by { assert [a][..0] == []; }
    assert MaxEpoch([a, lease]) == 0 by { assert [a, lease][..1] == [a]; }
    assert Legal(init, []) && run[..1] == [Restart(1)] && run[..1][..0] == [];
    assert Legal(init, run[..1]);
    var l := Final(init, run[..1]);
    assert [a, lease][..1] == [a] && l.files[l.f] == [a];
    assert Legal(init, run);
  }
}
