/** Length- and checksum-framed records (encode and scan in queue/wal.go). */
module Framing {
  import opened Msgs

  type byte = b: int | 0 <= b < 256

  const HEADER: nat := 8
  const MAX_RECORD: nat := 0x200_0000

  /** The library code the log relies on: JSON and CRC-32. */
  datatype Codec = Codec(
    marshal: Record -> Option<seq<byte>>,
    unmarshal: seq<byte> -> Option<Record>,
    checksum: seq<byte> -> nat)

  /** JSON bodies are not empty, are text without control characters, and read
      back; checksums fit four bytes. */
  ghost predicate Faithful(c: Codec) {
    && (forall r :: c.marshal(r).Some? ==>
          && |c.marshal(r).value| > 0 && IsText(c.marshal(r).value, 0)
          && c.unmarshal(c.marshal(r).value) == Some(r))
    && (forall body :: c.checksum(body) < 0x1_0000_0000)
  }

  /** From index i on there are no control characters. */
  predicate IsText(b: seq<byte>, i: nat) {
    forall k :: i <= k < |b| ==> b[k] >= 32
  }

  // ---------- big-endian numbers ----------

  function PutUint32(n: nat): (b: seq<byte>)
    requires n < 0x1_0000_0000
    ensures |b| == 4
  {
    [n / 0x100_0000, n / 0x1_0000 % 256, n / 256 % 256, n % 256]
  }

  function Uint32(b: seq<byte>): (n: nat)
    requires |b| == 4
    ensures n < 0x1_0000_0000
  {
    var b0: int, b1: int, b2: int, b3: int := b[0], b[1], b[2], b[3];
    b0 * 0x100_0000 + b1 * 0x1_0000 + b2 * 256 + b3
  }

  lemma Uint32RoundTrip(n: nat)
    requires n < 0x1_0000_0000
    ensures Uint32(PutUint32(n)) == n
  {
    var h, m := n / 0x1_0000, n / 256;
    assert n == m * 256 + n % 256;
    assert m == h * 256 + m % 256 by { assert m / 256 == h; }
    assert h == (n / 0x100_0000) * 256 + h % 256 by { assert h / 256 == n / 0x100_0000; }
  }

  // ---------- encoding ----------

  /** encode: no bytes when the record cannot be marshalled or is too large. */
  function Encode(c: Codec, rec: Record): (r: Option<seq<byte>>)
    requires Faithful(c)
  {
    match c.marshal(rec)
    case None => None
    case Some(body) =>
      if |body| > MAX_RECORD then None
      else Some(PutUint32(|body|) + PutUint32(c.checksum(body)) + body)
  }

  /** All of these records can be encoded. */
  ghost predicate Encodable(c: Codec, recs: seq<Record>)
    requires Faithful(c)
  {
    forall i :: 0 <= i < |recs| ==> Encode(c, recs[i]).Some?
  }

  ghost function EncodeAll(c: Codec, recs: seq<Record>): seq<byte>
    requires Faithful(c) && Encodable(c, recs)
  {
    if recs == [] then [] else Encode(c, recs[0]).value + EncodeAll(c, recs[1..])
  }

  // ---------- scanning ----------

  /** One attempt to read a record at the head of the bytes. */
  datatype Frame = End | Torn | Good(rec: Record, size: nat)

  function ReadFrame(c: Codec, b: seq<byte>): (f: Frame)
    ensures f.Good? ==> HEADER < f.size <= |b|
    ensures f.End? <==> |b| == 0
  {
    if |b| == 0 then End
    else if |b| < HEADER then Torn
    else
      var n := Uint32(b[..4]);
      if n == 0 || n > MAX_RECORD || HEADER + n > |b| then Torn
      else
        var body := b[HEADER..HEADER + n];
        if c.checksum(body) != Uint32(b[4..8]) then Torn
        else match c.unmarshal(body)
             case None => Torn
             case Some(rec) => Good(rec, HEADER + n)
  }

  /** The records read, the length of the bytes they take, and whether the bytes
      end there. */
  datatype Scanned = Scanned(recs: seq<Record>, good: nat, clean: bool)

  function Scan(c: Codec, b: seq<byte>): (s: Scanned)
    ensures s.good <= |b| && (s.clean <==> s.good == |b|)
  {
    match ReadFrame(c, b)
    case End => Scanned([], 0, true)
    case Torn => Scanned([], 0, false)
    case Good(rec, size) =>
      var rest := Scan(c, b[size..]);
      Scanned([rec] + rest.recs, size + rest.good, rest.clean)
  }

  /** Four bytes as a number, the highest first. */
  ghost function BigEndian(w: int, x: int, y: int, z: int): int {
    ((w * 256 + x) * 256 + y) * 256 + z
  }

  /** Which bytes are no record: too few of them, an implausible length, a checksum
      that does not match, or a body that is no JSON. */
  lemma TornExactly(c: Codec, b: seq<byte>)
    requires b != []
    ensures ReadFrame(c, b) == Torn <==>
            || |b| < 8
            || var n := BigEndian(b[0], b[1], b[2], b[3]);
               || n == 0 || n > 32 * 1024 * 1024 || |b| < 8 + n
               || c.checksum(b[8..8 + n]) != BigEndian(b[4], b[5], b[6], b[7])
               || c.unmarshal(b[8..8 + n]) == None
  {
    if |b| >= 8 {
      assert b[..4] == [b[0], b[1], b[2], b[3]] && b[4..8] == [b[4], b[5], b[6], b[7]];
    }
  }

  /** A frame at the head of the bytes is read, whatever follows it. */
  lemma ReadEncoded(c: Codec, rec: Record, rest: seq<byte>)
    requires Faithful(c) && Encode(c, rec).Some?
    ensures ReadFrame(c, Encode(c, rec).value + rest) == Good(rec, |Encode(c, rec).value|)
  {
    var body := c.marshal(rec).value;
    var b := Encode(c, rec).value + rest;
    assert b[..4] == PutUint32(|body|);
    assert b[4..8] == PutUint32(c.checksum(body));
    assert b[HEADER..HEADER + |body|] == body;
    Uint32RoundTrip(|body|);
    Uint32RoundTrip(c.checksum(body));
  }

  /** A proper prefix of a frame is never read as a record; the length gives it away. */
  lemma TornIsNotRead(c: Codec, rec: Record, k: nat)
    requires Faithful(c) && Encode(c, rec).Some? && k < |Encode(c, rec).value|
    ensures ReadFrame(c, Encode(c, rec).value[..k]) == if k == 0 then End else Torn
  {
    var body := c.marshal(rec).value;
    var torn := Encode(c, rec).value[..k];
    if HEADER <= k {
      assert torn[..4] == PutUint32(|body|);
      Uint32RoundTrip(|body|);
    }
  }

  /** Scanning the encodings of any records, followed by a proper prefix of another
      encoding, gives back exactly those records and stops at exactly their length. */
  lemma {:induction false} FramingRoundTrip(c: Codec, recs: seq<Record>, next: Record, k: nat)
    requires Faithful(c) && Encodable(c, recs)
    requires Encode(c, next).Some? && k < |Encode(c, next).value|
    ensures Scan(c, EncodeAll(c, recs) + Encode(c, next).value[..k]) ==
            Scanned(recs, |EncodeAll(c, recs)|, k == 0)
  {
    hide ReadFrame, Encode;
    var torn := Encode(c, next).value[..k];
    if recs == [] {
      assert EncodeAll(c, recs) + torn == torn;
      TornIsNotRead(c, next, k);
    } else {
      var head, rest := Encode(c, recs[0]).value, EncodeAll(c, recs[1..]) + torn;
      var all := EncodeAll(c, recs) + torn;
      assert all == head + rest;
      ReadEncoded(c, recs[0], rest);
      assert all[|head|..] == rest;
      FramingRoundTrip(c, recs[1..], next, k);
    }
  }

  lemma FrameShortened(c: Codec, b: seq<byte>, n: nat)
    requires ReadFrame(c, b).Good? && ReadFrame(c, b).size <= n <= |b|
    ensures ReadFrame(c, b[..n]) == ReadFrame(c, b)
  {
    var size := ReadFrame(c, b).size;
    assert b[..n][..4] == b[..4] && b[..n][4..8] == b[4..8];
    assert b[..n][HEADER..size] == b[HEADER..size];
  }

  /** Cutting the bytes at the last good record makes the scan clean and changes
      nothing it read: repairing a second time does nothing. */
  lemma {:induction false} RepairIsIdempotent(c: Codec, b: seq<byte>)
    ensures Scan(c, b[..Scan(c, b).good]) == Scanned(Scan(c, b).recs, Scan(c, b).good, true)
    decreases |b|, 1
  {
    match ReadFrame(c, b)
    case End =>
    case Torn =>
    case Good(rec, size) => RepairMore(c, b, rec, size);
  }

  lemma {:induction false} RepairMore(c: Codec, b: seq<byte>, rec: Record, size: nat)
    requires ReadFrame(c, b) == Good(rec, size)
    ensures Scan(c, b[..Scan(c, b).good]) == Scanned(Scan(c, b).recs, Scan(c, b).good, true)
    decreases |b|, 0
  {
    hide ReadFrame, Scan;
    ScanFirst(c, b, rec, size);
    var rest, good := b[size..], Scan(c, b).good;
    RepairIsIdempotent(c, rest);
    FrameShortened(c, b, good);
    ScanFirst(c, b[..good], rec, size);
    assert b[..good][size..] == rest[..good - size];
  }

  /** Bytes that start like JSON text are never read as a record: their length
      field is implausible. So the remains of a longer record, whose write failed
      and which a shorter one then overwrote, cannot be mistaken for a record. */
  lemma TextIsNotRead(c: Codec, b: seq<byte>)
    requires |b| > 0 && b[0] >= 3
    ensures Scan(c, b) == Scanned([], 0, false)
  {
    if |b| >= HEADER {
      assert b[..4][0] == b[0];
    }
  }

  lemma {:induction false} EncodeConcat(c: Codec, a: seq<Record>, b: seq<Record>)
    requires Faithful(c) && Encodable(c, a) && Encodable(c, b)
    ensures Encodable(c, a + b) && EncodeAll(c, a + b) == EncodeAll(c, a) + EncodeAll(c, b)
  {
    if a == [] {
      assert a + b == b;
    } else {
      EncodeConcat(c, a[1..], b);
      assert (a + b)[1..] == a[1..] + b;
    }
  }

  /** Scanning whole encodings gives back the records and ends cleanly. */
  lemma ScanClean(c: Codec, recs: seq<Record>)
    requires Faithful(c) && Encodable(c, recs)
    ensures Scan(c, EncodeAll(c, recs)) == Scanned(recs, |EncodeAll(c, recs)|, true)
  {
    if recs != [] {
      FramingRoundTrip(c, recs, recs[0], 0);
      assert EncodeAll(c, recs) + Encode(c, recs[0]).value[..0] == EncodeAll(c, recs);
    }
  }

  /** Cut short, a frame is no longer read. */
  lemma FrameCut(c: Codec, b: seq<byte>, k: nat)
    requires ReadFrame(c, b).Good? && k < ReadFrame(c, b).size
    ensures ReadFrame(c, b[..k]) == if k == 0 then End else Torn
  {
    if HEADER <= k {
      assert b[..k][..4] == b[..4];
    }
  }

  /** Of any bytes that scan cleanly, however many survive a crash, recovery reads
      the records that are whole in them, in order, and stops after the last: the
      next one, if there is one, was cut. */
  lemma {:induction false} SurvivingRecords(c: Codec, b: seq<byte>, k: nat) returns (j: nat)
    requires Scan(c, b).clean && k <= |b|
    ensures var recs, s := Scan(c, b).recs, Scan(c, b[..k]);
            && j <= |recs| && s.recs == recs[..j]
            && (if j == |recs| then s.good == k == |b| else
                  var next := ReadFrame(c, b[s.good..]);
                  next.Good? && next.rec == recs[j] && k < s.good + next.size)
    decreases |b|, 1
  {
    match ReadFrame(c, b)
    case End =>
      assert b[..k] == b;
      j := 0;
    case Torn =>
    case Good(rec, size) =>
      if k < size {
        FrameCut(c, b, k);
        assert b[0..] == b;
        j := 0;
      } else {
        j := SurvivingMore(c, b, k, rec, size);
      }
  }

  lemma {:induction false} SurvivingMore(c: Codec, b: seq<byte>, k: nat, rec: Record, size: nat) returns (j: nat)
    requires Scan(c, b).clean && ReadFrame(c, b) == Good(rec, size) && size <= k <= |b|
    ensures var recs, s := Scan(c, b).recs, Scan(c, b[..k]);
            && j <= |recs| && s.recs == recs[..j]
            && (if j == |recs| then s.good == k == |b| else
                  var next := ReadFrame(c, b[s.good..]);
                  next.Good? && next.rec == recs[j] && k < s.good + next.size)
    decreases |b|, 0
  {
    hide ReadFrame, Scan;
    ScanFirst(c, b, rec, size);
    var rest := b[size..];
    var i := SurvivingRecords(c, rest, k - size);
    FrameShortened(c, b, k);
    ScanFirst(c, b[..k], rec, size);
    assert b[..k][size..] == rest[..k - size];
    var good := Scan(c, rest[..k - size]).good;
    assert b[size + good..] == rest[good..];
    j := i + 1;
  }

  /** What was read from a clean stretch is still read when more bytes survive. */
  lemma SurvivingAtLeast(c: Codec, b: seq<byte>, d: nat, k: nat)
    requires d <= k <= |b| && Scan(c, b[..d]).clean
    ensures Scan(c, b[..d]).recs <= Scan(c, b[..k]).recs
  {
    hide Scan;
    assert b[..k] == b[..d] + b[d..k];
    ScanConcat(c, b[..d], b[d..k]);
  }

  /** A scan reads its first record, then the rest. */
  lemma ScanFirst(c: Codec, b: seq<byte>, rec: Record, size: nat)
    requires ReadFrame(c, b) == Good(rec, size)
    ensures var rest := Scan(c, b[size..]);
            Scan(c, b) == Scanned([rec] + rest.recs, size + rest.good, rest.clean)
  {
    hide ReadFrame;
  }

  /** What follows a clean stretch is read as if it stood alone. */
  lemma {:induction false} ScanConcat(c: Codec, a: seq<byte>, b: seq<byte>)
    requires Scan(c, a).clean
    ensures Scan(c, a + b) == Scanned(Scan(c, a).recs + Scan(c, b).recs, |a| + Scan(c, b).good, Scan(c, b).clean)
    decreases |a|, 1
  {
    match ReadFrame(c, a)
    case End => assert a + b == b;
    case Torn =>
    case Good(rec, size) => ScanConcatMore(c, a, b, rec, size);
  }

  lemma {:induction false} ScanConcatMore(c: Codec, a: seq<byte>, b: seq<byte>, rec: Record, size: nat)
    requires Scan(c, a).clean && ReadFrame(c, a) == Good(rec, size)
    ensures Scan(c, a + b) == Scanned(Scan(c, a).recs + Scan(c, b).recs, |a| + Scan(c, b).good, Scan(c, b).clean)
    decreases |a|, 0
  {
    hide ReadFrame, Scan;
    ScanFirst(c, a, rec, size);
    ScanConcat(c, a[size..], b);
    FrameStays(c, a, b);
    assert (a + b)[size..] == a[size..] + b;
    ScanFirst(c, a + b, rec, size);
  }

  /** A record that was read stays readable when bytes are added. */
  lemma FrameStays(c: Codec, a: seq<byte>, b: seq<byte>)
    requires ReadFrame(c, a).Good?
    ensures ReadFrame(c, a + b) == ReadFrame(c, a)
  {
    var size := ReadFrame(c, a).size;
    assert (a + b)[..4] == a[..4] && (a + b)[4..8] == a[4..8];
    assert (a + b)[HEADER..size] == a[HEADER..size];
  }

  /** One encoded record scans as itself. */
  lemma ScanOne(c: Codec, rec: Record)
    requires Faithful(c) && Encode(c, rec).Some?
    ensures Scan(c, Encode(c, rec).value) == Scanned([rec], |Encode(c, rec).value|, true)
  {
    var b := Encode(c, rec).value;
    ReadEncoded(c, rec, []);
    assert b + [] == b;
    assert b[|b|..] == [];
  }

  /** The scanning loop: read frames until the bytes end or make no sense. */
  method ScanLoop(c: Codec, b: seq<byte>) returns (s: Scanned)
    ensures s == Scan(c, b)
  {
    hide ReadFrame;
    var recs, offset := [], 0;
    while true
      invariant offset <= |b|
      invariant var rest := Scan(c, b[offset..]);
                Scan(c, b) == Scanned(recs + rest.recs, offset + rest.good, rest.clean)
      decreases |b| - offset
    {
      var frame := ReadFrame(c, b[offset..]);
      if frame.End? {
        return Scanned(recs, offset, true);
      } else if frame.Torn? {
        return Scanned(recs, offset, false);
      }
      assert b[offset..][frame.size..] == b[offset + frame.size..];
      recs := recs + [frame.rec];
      offset := offset + frame.size;
    }
  }
}
