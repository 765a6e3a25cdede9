/** The write-ahead log as an object over an abstract file system (queue/wal.go),
    with an fsync on every durable append. */
module Wal {
  import opened Msgs
  import opened Framing
  import Recovery
  import Model
  import L = LogRuns

  /** WriteAt: data over the bytes from off on. */
  function WriteAt(file: seq<byte>, off: nat, data: seq<byte>): (out: seq<byte>)
    requires off <= |file|
    ensures |out| >= off + |data| && out[..off] == file[..off] && out[off..off + |data|] == data
  {
    file[..off] + data + if off + |data| < |file| then file[off + |data|..] else []
  }

  datatype ScanResult =
    | Records(recs: seq<Record>)
    | BadOffset
    | Corrupt(recs: seq<Record>, at: nat)

  datatype Compaction = Swapped | Aborted | Orphaned

  /** Epoch records are the log's own; the callback does not see them. */
  function Delivered(recs: seq<Record>): seq<Record> {
    if recs == [] then [] else
      var last := recs[|recs| - 1];
      Delivered(recs[..|recs| - 1]) + if last.op == OpEpoch then [] else [last]
  }

  class WAL {
    const codec: Codec
    var inodes: seq<seq<byte>>    // the files of the file system, by handle
    var f: nat                    // the open handle
    var path: nat                 // the file the log's path names
    var size: nat
    var epoch: nat
    var retired: seq<nat>
    var failed: bool
    ghost var recs: seq<seq<Record>>  // the records written to each file
    ghost var synced: nat             // how many of the current file's records are durable
    ghost var durable: nat            // how many of its bytes are
    ghost var unacked: nat            // 1 when the last one was not acknowledged
    ghost var faults: nat             // calls to the operating system that have failed
    ghost var misfits: nat            // records refused because they cannot be encoded

    /** The log as a value, without its bytes. */
    ghost function Value(): L.Log
      reads this`recs, this`f, this`path, this`synced, this`epoch, this`failed
    {
      L.Log(recs, f, path, synced, epoch, failed)
    }

    /** The current file as its writers see it. */
    ghost function Contents(): (d: Model.Disk)
      reads this`recs, this`f, this`unacked, this`synced, this`failed
      ensures d.latched == failed
    {
      var all := if f < |recs| then recs[f] else [];
      var n := if unacked <= |all| then |all| - unacked else 0;
      Model.Disk(all[..n], all[n..], synced, failed)
    }

    /** The file that a restart opens, as recovery would find it. */
    ghost function AtPath(): (d: Model.Disk)
      reads this`recs, this`f, this`path, this`unacked, this`synced, this`failed
      ensures d.latched == failed
    {
      if path == f || path >= |recs| then Contents() else Model.Disk(recs[path], [], |recs[path]|, failed)
    }

    /** What a crash can count on: the durable bytes scan to the synced records, a
        file renamed into place is whole, and beyond the end lies at most the header
        of a record whose write failed, and text. */
    ghost predicate Secured()
      reads this`inodes, this`f, this`path, this`size, this`epoch, this`failed,
            this`recs, this`synced, this`durable, this`unacked
      requires f < |inodes| == |recs| && path < |recs| && synced <= |recs[f]|
    {
      && durable <= size <= |inodes[f]|
      && Scan(codec, inodes[f][..durable]) == Scanned(recs[f][..synced], durable, true)
      && (path != f ==> Scan(codec, inodes[path]) == Scanned(recs[path], |inodes[path]|, true))
      && IsText(inodes[f], size + HEADER)
    }

    /** The first size bytes of the current file scan to exactly its records. */
    ghost predicate Valid()
      reads this`inodes, this`f, this`path, this`size, this`epoch, this`failed,
            this`recs, this`synced, this`durable, this`unacked
    {
      && Faithful(codec) && |inodes| == |recs| && L.Ok(Value())
      && size <= |inodes[f]| && Scan(codec, inodes[f][..size]) == Scanned(recs[f], size, true)
      && unacked <= 1 && (unacked == 1 ==> failed) && synced + unacked <= |recs[f]|
      && Secured()
    }

    /** No record would be read from the bytes beyond the end. */
    ghost predicate Quiet()
      reads this`inodes, this`f, this`size
      requires f < |inodes| && size <= |inodes[f]|
    {
      forall k :: size <= k <= |inodes[f]| ==> Scan(codec, inodes[f][size..k]).recs == []
    }

    /** An encoded record is text after its header. */
    lemma FrameText(rec: Record)
      requires Faithful(codec) && Encode(codec, rec).Some?
      ensures IsText(Encode(codec, rec).value, HEADER) && |Encode(codec, rec).value| > HEADER
    {
    }

    lemma TextIsQuiet()
      requires f < |inodes| && size <= |inodes[f]| && IsText(inodes[f], size)
      ensures Quiet()
    {
      forall k | size <= k <= |inodes[f]|
        ensures Scan(codec, inodes[f][size..k]).recs == []
      {
        if k > size {
          TextIsNotRead(codec, inodes[f][size..k]);
        }
      }
    }

    lemma TornIsQuiet(rec: Record, done: nat)
      requires f < |inodes| && size <= |inodes[f]| && Faithful(codec) && Encode(codec, rec).Some?
      requires done < |Encode(codec, rec).value| && inodes[f][size..] == Encode(codec, rec).value[..done]
      ensures Quiet()
    {
      forall k | size <= k <= |inodes[f]|
        ensures Scan(codec, inodes[f][size..k]).recs == []
      {
        assert inodes[f][size..k] == Encode(codec, rec).value[..k - size];
        TornIsNotRead(codec, rec, k - size);
      }
    }

    /** Writing at the end leaves what is secured alone. */
    lemma StillSecured(file: seq<byte>, buf: seq<byte>, end: nat)
      requires f < |inodes| == |recs| && path < |recs| && synced <= |recs[f]| && Secured()
      requires file == WriteAt(inodes[f], size, buf) && IsText(buf, HEADER) && size <= end <= size + |buf|
      ensures file[..durable] == inodes[f][..durable] && IsText(file, size + HEADER) && IsText(file, end + HEADER)
      ensures |buf| >= HEADER ==> IsText(file, size + |buf|)
    {
      hide Scan;
      forall k | size + HEADER <= k < |file|
        ensures file[k] >= 32
      {
        if k < size + |buf| {
          assert file[k] == file[size..size + |buf|][k - size];
        } else {
          assert file[k] == inodes[f][k];
        }
      }
      assert file[..size] == inodes[f][..size];
    }

    /** Put one encoded record at the end of the current file. */
    method Put(rec: Record, buf: seq<byte>)
      requires Valid() && !failed && rec.op != OpEpoch && Encode(codec, rec) == Some(buf)
      modifies this`inodes, this`size, this`recs
      ensures Valid() && recs == old(recs)[f := old(recs)[f] + [rec]] && Contents() == old(Contents()).Lazy(rec)
      ensures Value() == L.After(old(Value()), L.Append(rec, false))
      ensures size == old(size) + |buf| && |inodes| == old(|inodes|) && size <= |inodes[f]| && Quiet()
      ensures inodes[f][..old(size)] == old(inodes[f][..size])
      ensures forall h :: 0 <= h < |inodes| && h != f ==> inodes[h] == old(inodes[h])
    {
      hide Scan, Encode, Faithful, L.MaxEpoch, L.EpochFirst, IsText, Quiet;
      FrameText(rec);
      ScanOne(codec, rec);
      ScanConcat(codec, inodes[f][..size], buf);
      L.OkKeeps(Value(), L.Append(rec, false));
      var file := WriteAt(inodes[f], size, buf);
      StillSecured(file, buf, size + |buf|);
      assert file[..size + |buf|] == inodes[f][..size] + buf;
      inodes := inodes[f := file];
      size := size + |buf|;
      recs := recs[f := recs[f] + [rec]];
      TextIsQuiet();
    }

    /** What an append can have failed for, other than a latched log. */
    ghost function Trouble(): nat
      reads this`faults, this`misfits
    {
      faults + misfits
    }

    /** The log was not latched before, and no call to the operating system has failed
        and no record has been refused since. */
    twostate predicate Untroubled()
      reads this`failed, this`faults, this`misfits
    {
      !old(failed) && Trouble() == old(Trouble())
    }

    /** A write of n bytes by the operating system, which may stop early. */
    method OsWrite(n: nat) returns (done: nat)
      modifies this`faults
      ensures done <= n && faults == old(faults) + if done < n then 1 else 0
    {
      var d: int := *;
      done := if 0 <= d < n then d else n;
      faults := faults + if done < n then 1 else 0;
    }

    /** Any other call to the operating system: an fsync, a rename, an open. */
    method OsCall() returns (ok: bool)
      modifies this`faults
      ensures faults == old(faults) + if ok then 0 else 1
    {
      ok := *;
      faults := faults + if ok then 0 else 1;
    }

    /** write: encode, append at the tracked offset and, when durable, fsync. What
        the operating system does is up to it; only the outcome is known. Bytes that
        a failed write leaves beyond the end are quiet, unless another failed write
        had left some there before. */
    method Write(rec: Record, sync: bool) returns (o: Model.Outcome)
      requires Valid() && rec.op != OpEpoch
      modifies this`inodes, this`size, this`recs, this`synced, this`durable, this`unacked, this`failed
      modifies this`faults, this`misfits
      ensures Valid() && Model.Possible(old(Contents()), o) && (!sync ==> o != Model.NotSynced)
      ensures Contents() == if sync then old(Contents()).Durable(rec, o)
                            else if o == Model.Ok then old(Contents()).Lazy(rec) else old(Contents())
      ensures match o
              case Ok =>
                L.Can(old(Value()), L.Append(rec, sync)) && Value() == L.After(old(Value()), L.Append(rec, sync))
              case NotWritten => Value() == old(Value()) && size == old(size)
              case NotSynced =>
                L.Can(old(Value()), L.SyncFails(rec)) && Value() == L.After(old(Value()), L.SyncFails(rec))
      ensures |inodes| == old(|inodes|) && old(size) <= size && inodes[f][..old(size)] == old(inodes[f][..size])
      ensures forall h :: 0 <= h < |inodes| && h != f ==> inodes[h] == old(inodes[h])
      ensures o != Model.NotWritten || old(|inodes[f]| == size) ==> Quiet()
      ensures misfits == old(misfits) + if Encode(codec, rec).None? then 1 else 0
      ensures Trouble() >= old(Trouble()) && (o == Model.Ok <==> Untroubled())
    {
      hide Scan, Faithful, Encode, Secured, L.MaxEpoch, L.EpochFirst, L.Ok, L.Can, L.After, Quiet, Contents;
      NothingIsQuiet();
      Unlatched();
      var encoded := Encode(codec, rec);
      if encoded.None? {
        misfits := misfits + 1;
        return Model.NotWritten;
      }
      if failed {
        return Model.NotWritten;
      }
      o := WriteBytes(rec, encoded.value, sync);
    }

    lemma Unlatched()
      requires Valid()
      ensures Contents().latched == failed
    {
      hide Scan, Faithful, Secured, L.MaxEpoch, L.EpochFirst;
    }

    /** The part of write that follows encoding, on a log that is not latched. */
    method WriteBytes(rec: Record, buf: seq<byte>, sync: bool) returns (o: Model.Outcome)
      requires Valid() && !failed && rec.op != OpEpoch && Encode(codec, rec) == Some(buf)
      modifies this`inodes, this`size, this`recs, this`synced, this`durable, this`unacked, this`failed, this`faults
      ensures Valid() && (!sync ==> o != Model.NotSynced)
      ensures Contents() == if sync then old(Contents()).Durable(rec, o)
                            else if o == Model.Ok then old(Contents()).Lazy(rec) else old(Contents())
      ensures match o
              case Ok =>
                L.Can(old(Value()), L.Append(rec, sync)) && Value() == L.After(old(Value()), L.Append(rec, sync))
              case NotWritten => Value() == old(Value()) && size == old(size)
              case NotSynced =>
                L.Can(old(Value()), L.SyncFails(rec)) && Value() == L.After(old(Value()), L.SyncFails(rec))
      ensures |inodes| == old(|inodes|) && old(size) <= size && inodes[f][..old(size)] == old(inodes[f][..size])
      ensures forall h :: 0 <= h < |inodes| && h != f ==> inodes[h] == old(inodes[h])
      ensures o != Model.NotWritten || old(|inodes[f]| == size) ==> Quiet()
      ensures faults == old(faults) + if o == Model.Ok then 0 else 1
    {
      hide Scan, Faithful, Encode, Secured, IsText, L.After, L.MaxEpoch, L.EpochFirst, Quiet, Contents;
      ghost var value, disk := Value(), Contents();
      var done := OsWrite(|buf|);
      if done < |buf| {
        // The write stops early; the bytes it put down are beyond size.
        PutPart(rec, buf, done);
        return Model.NotWritten;
      }
      Put(rec, buf);
      if !sync {
        return Model.Ok;
      }
      var flushed := Settle(rec, value, disk);
      return if flushed then Model.Ok else Model.NotSynced;
    }

    /** The fsync of a durable append. */
    method Settle(ghost rec: Record, ghost value: L.Log, ghost disk: Model.Disk) returns (ok: bool)
      requires Valid() && !failed && synced < |recs[f]| && rec.op != OpEpoch
      requires L.Ok(value) && !value.failed && Value() == L.After(value, L.Append(rec, false))
      requires Contents() == disk.Lazy(rec)
      modifies this`synced, this`durable, this`unacked, this`failed, this`faults
      ensures Valid() && (old(Quiet()) ==> Quiet()) && faults == old(faults) + if ok then 0 else 1
      ensures Value() == L.After(value, if ok then L.Append(rec, true) else L.SyncFails(rec))
      ensures Contents() == disk.Durable(rec, if ok then Model.Ok else Model.NotSynced)
    {
      hide Scan, Faithful, Encode, Secured, Quiet, L.MaxEpoch, L.EpochFirst;
      ok := OsCall();
      if ok {
        Flush();
      } else {
        Latch();
      }
    }

    lemma NothingIsQuiet()
      requires Valid()
      ensures |inodes[f]| == size ==> Quiet()
    {
      hide Faithful;
      assert |inodes[f]| == size ==> inodes[f][size..size] == [];
    }

    /** The fsync failed. */
    method Latch()
      requires Valid() && synced < |recs[f]|
      modifies this`failed, this`unacked
      ensures Valid() && failed && unacked == 1
      ensures old(Quiet()) ==> Quiet()
    {
      hide Scan, Faithful, L.MaxEpoch, L.EpochFirst;
      failed, unacked := true, 1;
    }

    /** The fsync covers the whole file. */
    method Flush()
      requires Valid() && !failed
      modifies this`synced, this`durable
      ensures Valid() && synced == |recs[f]|
      ensures old(Quiet()) ==> Quiet()
    {
      hide Scan, Faithful, L.MaxEpoch, L.EpochFirst;
      synced, durable := |recs[f]|, size;
      assert recs[f][..synced] == recs[f];
    }

    /** Bytes beyond size belong to nobody. */
    method PutPart(rec: Record, buf: seq<byte>, done: nat)
      requires Valid() && Encode(codec, rec) == Some(buf) && done < |buf|
      modifies this`inodes
      ensures Valid() && |inodes| == old(|inodes|) && inodes[f][..size] == old(inodes[f][..size])
      ensures forall h :: 0 <= h < |inodes| && h != f ==> inodes[h] == old(inodes[h])
      ensures old(|inodes[f]| == size) ==> Quiet()
    {
      hide Scan, Faithful, Encode, L.MaxEpoch, L.EpochFirst, IsText, Quiet;
      FrameText(rec);
      TextPrefix(buf, done);
      var file := WriteAt(inodes[f], size, buf[..done]);
      StillSecured(file, buf[..done], size);
      inodes := inodes[f := file];
      if old(|inodes[f]| == size) {
        assert inodes[f][size..] == buf[..done];
        TornIsQuiet(rec, done);
      }
    }

    lemma TextPrefix(buf: seq<byte>, k: nat)
      requires IsText(buf, HEADER) && k <= |buf|
      ensures IsText(buf[..k], HEADER)
    {
    }

    /** AppendSync */
    method AppendSync(rec: Record) returns (o: Model.Outcome)
      requires Valid() && rec.op != OpEpoch
      modifies this`inodes, this`size, this`recs, this`synced, this`durable, this`unacked, this`failed
      modifies this`faults, this`misfits
      ensures Valid() && (old(failed) ==> o == Model.NotWritten) && (failed <==> old(failed) || o == Model.NotSynced)
      ensures AtPath() == old(AtPath()).Durable(rec, o)
      ensures misfits == old(misfits) + if Encode(codec, rec).None? then 1 else 0
      ensures Trouble() >= old(Trouble()) && (o == Model.Ok <==> Untroubled())
    {
      hide Faithful, Scan, Secured, L.MaxEpoch, L.EpochFirst;
      o := Write(rec, true);
    }

    /** Append */
    method Append(rec: Record) returns (ok: bool)
      requires Valid() && rec.op != OpEpoch
      modifies this`inodes, this`size, this`recs, this`synced, this`durable, this`unacked, this`failed
      modifies this`faults, this`misfits
      ensures Valid() && (old(failed) ==> !ok) && failed == old(failed)
      ensures AtPath() == if ok then old(AtPath()).Lazy(rec) else old(AtPath())
      ensures misfits == old(misfits) + if Encode(codec, rec).None? then 1 else 0
      ensures Trouble() >= old(Trouble()) && (ok <==> Untroubled())
    {
      hide Faithful, Scan, Secured, L.MaxEpoch, L.EpochFirst;
      var o := Write(rec, false);
      ok := o == Model.Ok;
    }

    /** Open the log on any bytes, such as a crash left behind, reading and repairing
        it. The epoch is the one the records say. */
    constructor (codec: Codec, bytes: seq<byte>)
      requires Faithful(codec)
      ensures Valid() && !failed && unacked == 0 && this.codec == codec && f == path == 0
      ensures L.EpochFirst(Scan(codec, bytes).recs, |Scan(codec, bytes).recs|) ==> L.Honest(Value())
      ensures recs == [Scan(codec, bytes).recs] && epoch == L.MaxEpoch(Scan(codec, bytes).recs)
      ensures inodes == [bytes[..Scan(codec, bytes).good]] && size == |inodes[0]|
      ensures synced == |recs[0]| && durable == size
    {
      hide Scan, Faithful, L.MaxEpoch, L.EpochFirst;
      this.codec := codec;
      var s := ScanLoop(codec, bytes);
      RepairIsIdempotent(codec, bytes);
      // The torn tail, if any, is cut off; a clean log is left alone.
      inodes := [bytes[..s.good]];
      assert bytes[..s.good][..s.good] == bytes[..s.good] && s.recs[..|s.recs|] == s.recs;
      f, path, size, retired, failed := 0, 0, s.good, [], false;
      epoch := L.MaxEpoch(s.recs);
      recs, synced, durable, unacked := [s.recs], |s.recs|, s.good, 0;
    }

    /** A crash leaves some bytes of the file the path names: all of a renamed one,
        and of the current one at least the durable bytes. As long as nothing beyond
        the end is read as a record, what recovery reads from them is a prefix of the
        records, which covers the synced ones. */
    lemma CrashIsRestart(k: nat) returns (keep: nat)
      requires Valid()
      requires if path == f then durable <= k <= |inodes[f]| else k == |inodes[path]|
      requires path == f && k > size ==> Scan(codec, inodes[f][size..k]).recs == []
      ensures L.Can(Value(), L.Restart(keep))
      ensures Scan(codec, inodes[path][..k]).recs == recs[path][..keep]
      ensures L.After(Value(), L.Restart(keep)).files == recs + [Scan(codec, inodes[path][..k]).recs]
      ensures L.After(Value(), L.Restart(keep)).epoch == L.MaxEpoch(Scan(codec, inodes[path][..k]).recs)
      ensures AtPath().synced <= keep <= |AtPath().Written()|
      ensures Scan(codec, inodes[path][..k]).recs == AtPath().Written()[..keep]
    {
      hide Scan, Faithful, L.MaxEpoch, L.EpochFirst, IsText;
      if path != f {
        keep := |recs[path]|;
        assert inodes[path][..k] == inodes[path] && recs[path][..keep] == recs[path];
      } else {
        keep := SurvivingPrefix(k);
      }
      WrittenIs();
    }

    lemma SurvivingPrefix(k: nat) returns (keep: nat)
      requires Valid() && durable <= k <= |inodes[f]|
      requires k > size ==> Scan(codec, inodes[f][size..k]).recs == []
      ensures synced <= keep <= |recs[f]| && Scan(codec, inodes[f][..k]).recs == recs[f][..keep]
    {
      hide Scan, Faithful, L.MaxEpoch, L.EpochFirst, IsText;
      SurvivingAtLeast(codec, inodes[f], durable, k);
      if k <= size {
        keep := SurvivingRecords(codec, inodes[f][..size], k);
        assert inodes[f][..size][..k] == inodes[f][..k];
      } else {
        keep := |recs[f]|;
        assert inodes[f][..k] == inodes[f][..size] + inodes[f][size..k];
        ScanConcat(codec, inodes[f][..size], inodes[f][size..k]);
        assert recs[f][..keep] == recs[f] && recs[f] + [] == recs[f];
      }
    }

    lemma WrittenIs()
      requires Valid()
      ensures AtPath().Written() == recs[path] && AtPath().synced == L.SyncedAt(Value())
    {
      hide Scan, Faithful, L.MaxEpoch, L.EpochFirst, Secured;
    }

    /** Scan: read from a byte offset up to the end captured now. Nothing but the
        epoch can change; the bytes are out of reach. */
    method ReadFrom(from: int) returns (r: ScanResult)
      requires Valid()
      modifies this`epoch
      ensures from < 0 || from > size ==> r == BadOffset && epoch == old(epoch)
      ensures 0 <= from <= size ==>
                var s := Scan(codec, inodes[f][from..size]);
                && r == (if s.clean then Records(Delivered(s.recs)) else Corrupt(Delivered(s.recs), from + s.good))
                && epoch == Recovery.Max(old(epoch), L.MaxEpoch(s.recs))
      ensures AtPath() == old(AtPath()) && Contents() == old(Contents()) && Valid()
    {
      hide Scan, Faithful, L.MaxEpoch, Secured, AtPath, Contents;
      if from < 0 || from > size {
        return BadOffset;
      }
      var s := ScanLoop(codec, inodes[f][from..size]);
      LearnEpoch(s.recs);
      r := if s.clean then Records(Delivered(s.recs)) else Corrupt(Delivered(s.recs), from + s.good);
    }

    /** An epoch record that was read counts if it is higher. */
    method LearnEpoch(read: seq<Record>)
      requires Valid()
      modifies this`epoch
      ensures epoch == Recovery.Max(old(epoch), L.MaxEpoch(read))
      ensures AtPath() == old(AtPath()) && Contents() == old(Contents()) && Valid()
    {
      hide Scan, Faithful, L.MaxEpoch, IsText;
      epoch := Recovery.Max(epoch, L.MaxEpoch(read));
    }

    /** What a renamed compaction leaves in the file system. */
    ghost predicate Renamed(before: seq<seq<byte>>, n: nat, live: seq<Record>)
      reads this
    {
      && path == |before| && |inodes| == |before| + 1 && inodes[..path] == before
      && Scan(codec, inodes[path]) == Scanned([EpochRecord(n + 1)] + live, |inodes[path]|, true)
    }

    /** The renamed file cannot be opened: the log is latched. */
    method LoseHandle(bytes: seq<byte>, live: seq<Record>)
      requires Valid() && L.Can(Value(), L.Orphan(live))
      requires Scan(codec, bytes) == Scanned([EpochRecord(epoch + 1)] + live, |bytes|, true)
      modifies this`inodes, this`recs, this`path, this`failed
      ensures Valid() && Value() == L.After(old(Value()), L.Orphan(live))
      ensures Renamed(old(inodes), old(epoch), live)
    {
      hide Faithful, Scan, L.MaxEpoch, L.EpochFirst;
      L.OkKeeps(Value(), L.Orphan(live));
      inodes, recs := inodes + [bytes], recs + [[EpochRecord(epoch + 1)] + live];
      path, failed := |inodes| - 1, true;
    }

    /** A file that is durable as a whole. */
    lemma WholeIsSecured()
      requires f == path < |inodes| == |recs| && synced == |recs[f]| && durable == size == |inodes[f]|
      requires Scan(codec, inodes[f][..size]) == Scanned(recs[f], size, true)
      ensures Secured()
    {
      hide Scan;
      assert recs[f][..synced] == recs[f];
    }

    /** The renamed file is opened and the old handle retired. */
    method Swap(bytes: seq<byte>, live: seq<Record>)
      requires Valid() && L.Can(Value(), L.Compact(live))
      requires Scan(codec, bytes) == Scanned([EpochRecord(epoch + 1)] + live, |bytes|, true)
      modifies this`inodes, this`recs, this`path, this`retired, this`f, this`size, this`epoch
      modifies this`synced, this`durable, this`unacked
      ensures Valid() && Value() == L.After(old(Value()), L.Compact(live))
      ensures Renamed(old(inodes), old(epoch), live)
      ensures unacked == 0 && retired == old(retired) + [old(f)]
    {
      hide Faithful, Scan, L.MaxEpoch, L.EpochFirst, Secured, Contents;
      L.OkKeeps(Value(), L.Compact(live));
      assert bytes[..|bytes|] == bytes;
      inodes, recs := inodes + [bytes], recs + [[EpochRecord(epoch + 1)] + live];
      path := |inodes| - 1;
      retired := retired + [f];
      f, size, epoch := path, |bytes|, epoch + 1;
      synced, durable, unacked := |live| + 1, size, 0;
      WholeIsSecured();
    }

    /** Compact: write the records aside, sync, rename over the log, reopen. The
        path names the old file or the whole new one, never anything else. */
    method Compact(live: seq<Record>) returns (r: Compaction)
      requires Valid() && forall rec :: rec in live ==> rec.op != OpEpoch
      modifies this
      ensures Valid()
      ensures r == Aborted ==> SameLog()
      ensures r == Swapped <==> Untroubled()
      ensures misfits > old(misfits) ==>
                r == Aborted && exists rec :: rec in [EpochRecord(old(epoch) + 1)] + live && Encode(codec, rec).None?
      ensures misfits >= old(misfits) && faults >= old(faults)
      ensures r == Swapped ==> L.Can(old(Value()), L.Compact(live)) && Value() == L.After(old(Value()), L.Compact(live))
      ensures r == Swapped ==> unacked == 0 && retired == old(retired) + [old(f)]
      ensures r == Orphaned ==> L.Can(old(Value()), L.Orphan(live)) && Value() == L.After(old(Value()), L.Orphan(live))
      ensures r != Aborted ==> Renamed(old(inodes), old(epoch), live)
    {
      hide Encode, Faithful, Scan, L.Ok, L.After, Renamed;
      if failed {
        return Aborted;
      }
      var ok, bytes := WriteAside([EpochRecord(epoch + 1)] + live);
      if !ok {
        return Aborted;
      }
      var flushed := OsCall();
      if !flushed {
        return Aborted;
      }
      var renamed := OsCall();
      if !renamed {
        return Aborted;
      }
      var reopened := OsCall();
      if reopened {
        Swap(bytes, live);
        return Swapped;
      } else {
        LoseHandle(bytes, live);
        return Orphaned;
      }
    }

    /** The loop that fills the new file; encoding or writing may fail. */
    method WriteAside(records: seq<Record>) returns (ok: bool, bytes: seq<byte>)
      requires Faithful(codec)
      modifies this`faults, this`misfits
      ensures misfits >= old(misfits) && faults >= old(faults)
      ensures ok ==> Scan(codec, bytes) == Scanned(records, |bytes|, true)
      ensures ok <==> Trouble() == old(Trouble())
      ensures misfits > old(misfits) ==> exists rec :: rec in records && Encode(codec, rec).None?
    {
      hide Encode, Faithful, Scan;
      bytes, ok := [], false;
      assert records[..0] == [] && Scan(codec, []) == Scanned([], 0, true) by {
        NothingScans();
      }
      for i := 0 to |records|
        invariant Trouble() == old(Trouble()) && misfits == old(misfits)
        invariant Scan(codec, bytes) == Scanned(records[..i], |bytes|, true)
      {
        var encoded := Encode(codec, records[i]);
        if encoded.None? {
          misfits := misfits + 1;
          return;
        }
        var done := OsWrite(|encoded.value|);
        if done < |encoded.value| {
          return;
        }
        ScanOne(codec, records[i]);
        ScanConcat(codec, bytes, encoded.value);
        bytes := bytes + encoded.value;
      }
      assert records[..|records|] == records;
      ok := true;
    }

    lemma NothingScans()
      ensures Scan(codec, []) == Scanned([], 0, true)
    {
    }

    /** Nothing of the log or its files has changed. */
    twostate predicate SameLog()
      reads this
    {
      unchanged(this`inodes, this`f, this`path, this`size, this`epoch, this`retired, this`failed,
                this`recs, this`synced, this`durable, this`unacked)
    }

    /** Bookmark: epoch and offset together. */
    function Bookmark(): L.Bookmark
      reads this
    {
      L.Bookmark(epoch, size)
    }
  }
}
