/** The append-only batch log as bytes: framing, walking and truncating, and reading one record. */
module BatchLog {
  import opened Voxels
  import opened Poses

  newtype byte = x: int | 0 <= x < 256

  type Bytes = seq<byte>

  const LOG_MAGIC: nat := 0x4c564350
  const FRAME_BYTES: nat := 16
  const MAX_HEADER_BYTES: nat := 64 * 1024
  const MAX_PAYLOAD_BYTES: nat := 0x7fff_ffff
  const U32: nat := 0x1_0000_0000

  datatype Header = Header(sequence: nat, poseSequence: nat, timestamp: string, pointCount: nat, pose: Pose,
                           pointFormat: Option<string>)

  datatype Record = Record(header: Header, payload: Bytes)

  /** JSON and CRC-32, of which only what framing relies on is known. */
  datatype Codec = Codec(stringify: Header -> Bytes, parse: Bytes -> Option<Header>, crc32: (Bytes, nat) -> nat)

  /** The header survives being written as JSON and read back. */
  predicate RoundTrips(codec: Codec, h: Header) {
    codec.parse(codec.stringify(h)) == Some(h) && |codec.stringify(h)| > 0
  }

  /** Whatever was once read from JSON survives being written and read again; the checksum runs over joined bytes. */
  ghost predicate Sane(codec: Codec) {
    && (forall b: Bytes :: codec.parse(b).Some? ==> RoundTrips(codec, codec.parse(b).value))
    && (forall b: Bytes, seed: nat :: codec.crc32(b, seed) < U32)
    && (forall a: Bytes, b: Bytes :: codec.crc32(a + b, 0) == codec.crc32(b, codec.crc32(a, 0)))
  }

  // ---------------------------------------------------------------- little-endian words

  function Le32(v: nat): (b: Bytes)
    requires v < U32
    ensures |b| == 4
  {
    [(v % 256) as byte, (v / 256 % 256) as byte, (v / 256 / 256 % 256) as byte, (v / 256 / 256 / 256) as byte]
  }

  function ReadU32(b: Bytes, at: nat): (v: nat)
    requires at + 4 <= |b|
    ensures v < U32
  {
    b[at] as nat + 256 * b[at + 1] as nat + 65536 * b[at + 2] as nat + 16777216 * b[at + 3] as nat
  }

  lemma WordRoundTrip(v: nat, b: Bytes, at: nat)
    requires v < U32 && at + 4 <= |b| && b[at..at + 4] == Le32(v)
    ensures ReadU32(b, at) == v
  {
    var w := b[at..at + 4];
    assert w[0] == b[at] && w[1] == b[at + 1] && w[2] == b[at + 2] && w[3] == b[at + 3];
    var q := v / 256;
    assert v == 256 * q + v % 256 && q == 256 * (q / 256) + q % 256;
  }

  // ---------------------------------------------------------------- one record

  /** The header is one JSON can carry and the lengths fit their 32-bit fields; nothing else can be framed at all. */
  predicate Encodable(codec: Codec, r: Record) {
    RoundTrips(codec, r.header) && |codec.stringify(r.header)| < U32 && |r.payload| < U32
  }

  /** The record is within the bounds replay accepts. */
  predicate InBounds(codec: Codec, r: Record) {
    |codec.stringify(r.header)| <= MAX_HEADER_BYTES && |r.payload| <= MAX_PAYLOAD_BYTES
  }

  function EncodeRecord(codec: Codec, r: Record): (bytes: Bytes)
    requires Sane(codec) && Encodable(codec, r)
    ensures |bytes| == FRAME_BYTES + |codec.stringify(r.header)| + |r.payload|
  {
    var header := codec.stringify(r.header);
    Le32(LOG_MAGIC) + Le32(|header|) + Le32(|r.payload|) + Le32(codec.crc32(r.payload, codec.crc32(header, 0)))
      + header + r.payload
  }

  /** A frame as found at an offset. */
  datatype Frame = Frame(magic: nat, headerLength: nat, payloadLength: nat, crc: nat)

  function FrameAt(bytes: Bytes, at: nat): Frame
    requires at + FRAME_BYTES <= |bytes|
  {
    Frame(ReadU32(bytes, at), ReadU32(bytes, at + 4), ReadU32(bytes, at + 8), ReadU32(bytes, at + 12))
  }

  function BodyAt(bytes: Bytes, at: nat, f: Frame): Bytes
    requires at + FRAME_BYTES + f.headerLength + f.payloadLength <= |bytes|
  {
    bytes[at + FRAME_BYTES..at + FRAME_BYTES + f.headerLength + f.payloadLength]
  }

  function Past(at: nat, f: Frame): nat {
    at + FRAME_BYTES + f.headerLength + f.payloadLength
  }

  /** What replay makes of the bytes at an offset: an intact record, or nothing. */
  function IntactAt(codec: Codec, bytes: Bytes, at: nat): Option<Record> {
    if at + FRAME_BYTES > |bytes| then None
    else
      var f := FrameAt(bytes, at);
      if f.magic != LOG_MAGIC || f.headerLength == 0 || f.headerLength > MAX_HEADER_BYTES
         || f.payloadLength > MAX_PAYLOAD_BYTES || Past(at, f) > |bytes| then None
      else
        var body := BodyAt(bytes, at, f);
        if codec.crc32(body, 0) != f.crc then None
        else
          match codec.parse(body[..f.headerLength])
          case None => None
          case Some(h) => Some(Record(h, body[f.headerLength..]))
  }

  lemma SliceOfSlice(bytes: Bytes, at: nat, n: nat, e: Bytes, i: nat)
    requires at + n <= |bytes| && n <= |e| && bytes[at..at + n] == e[..n] && i + 4 <= n
    ensures bytes[at + i..at + i + 4] == e[i..i + 4]
  {
    var s := bytes[at..at + n];
    forall j | i <= j < i + 4 ensures bytes[at + j] == e[j] {
      assert s[j] == bytes[at + j];
    }
    var a, b := bytes[at + i..at + i + 4], e[i..i + 4];
    assert a[0] == b[0] && a[1] == b[1] && a[2] == b[2] && a[3] == b[3];
  }

  /** The frame of an encoded record reads back, whatever surrounds it. */
  lemma FrameOfEncoded(codec: Codec, r: Record, bytes: Bytes, at: nat, n: nat)
    requires Sane(codec) && Encodable(codec, r) && FRAME_BYTES <= n <= |EncodeRecord(codec, r)|
    requires at + n <= |bytes| && bytes[at..at + n] == EncodeRecord(codec, r)[..n]
    ensures FrameAt(bytes, at) == Frame(LOG_MAGIC, |codec.stringify(r.header)|, |r.payload|,
                                        codec.crc32(codec.stringify(r.header) + r.payload, 0))
  {
    var header, e := codec.stringify(r.header), EncodeRecord(codec, r);
    var crc := codec.crc32(r.payload, codec.crc32(header, 0));
    hide Le32, ReadU32;
    assert e[0..4] == Le32(LOG_MAGIC) && e[4..8] == Le32(|header|) && e[8..12] == Le32(|r.payload|)
        && e[12..16] == Le32(crc);
    hide EncodeRecord;
    SliceOfSlice(bytes, at, n, e, 0);
    SliceOfSlice(bytes, at, n, e, 4);
    SliceOfSlice(bytes, at, n, e, 8);
    SliceOfSlice(bytes, at, n, e, 12);
    WordRoundTrip(LOG_MAGIC, bytes, at);
    WordRoundTrip(|header|, bytes, at + 4);
    WordRoundTrip(|r.payload|, bytes, at + 8);
    WordRoundTrip(crc, bytes, at + 12);
  }

  lemma BodyOfEncoded(codec: Codec, r: Record, bytes: Bytes, at: nat)
    requires Sane(codec) && Encodable(codec, r)
    requires at + |EncodeRecord(codec, r)| <= |bytes|
             && bytes[at..at + |EncodeRecord(codec, r)|] == EncodeRecord(codec, r)
    ensures Past(at, FrameAt(bytes, at)) == at + |EncodeRecord(codec, r)|
    ensures BodyAt(bytes, at, FrameAt(bytes, at)) == codec.stringify(r.header) + r.payload
    ensures FrameAt(bytes, at).headerLength == |codec.stringify(r.header)|
  {
    var e := EncodeRecord(codec, r);
    assert e[..|e|] == e;
    FrameOfEncoded(codec, r, bytes, at, |e|);
    assert e[FRAME_BYTES..] == codec.stringify(r.header) + r.payload;
    hide FrameAt;
    assert bytes[at + FRAME_BYTES..at + |e|] == bytes[at..at + |e|][FRAME_BYTES..];
  }

  /** A record reads back exactly when it is within the bounds, wherever it lies in the file. */
  lemma EncodedIsIntact(codec: Codec, r: Record, bytes: Bytes, at: nat)
    requires Sane(codec) && Encodable(codec, r)
    requires at + |EncodeRecord(codec, r)| <= |bytes|
             && bytes[at..at + |EncodeRecord(codec, r)|] == EncodeRecord(codec, r)
    ensures IntactAt(codec, bytes, at) == if InBounds(codec, r) then Some(r) else None
  {
    var e, header := EncodeRecord(codec, r), codec.stringify(r.header);
    assert e[..|e|] == e;
    FrameOfEncoded(codec, r, bytes, at, |e|);
    BodyOfEncoded(codec, r, bytes, at);
    assert (header + r.payload)[..|header|] == header && (header + r.payload)[|header|..] == r.payload;
    hide FrameAt, EncodeRecord;
    assert codec.parse(header) == Some(r.header);
  }

  /** A record of which the last bytes are missing never reads as one. */
  lemma TornIsNotIntact(codec: Codec, r: Record, bytes: Bytes, at: nat)
    requires Sane(codec) && Encodable(codec, r) && at <= |bytes|
    requires bytes[at..] < EncodeRecord(codec, r)
    ensures IntactAt(codec, bytes, at) == None
  {
    var n := |bytes| - at;
    if n >= FRAME_BYTES {
      assert bytes[at..at + n] == bytes[at..];
      FrameOfEncoded(codec, r, bytes, at, n);
    }
  }

  // ---------------------------------------------------------------- walking the log

  datatype LogRecord = LogRecord(record: Record, offset: nat, nextOffset: nat)

  function FrameSize(bytes: Bytes, at: nat): nat
    requires at + FRAME_BYTES <= |bytes|
  {
    Past(at, FrameAt(bytes, at)) - at
  }

  /** The intact records from an offset up to the first torn or corrupt one, and where that is. */
  function Walk(codec: Codec, bytes: Bytes, at: nat): (r: (seq<LogRecord>, nat))
    requires at <= |bytes|
    ensures at <= r.1 <= |bytes|
    decreases |bytes| - at
  {
    match IntactAt(codec, bytes, at)
    case None => ([], at)
    case Some(record) =>
      var next := at + FrameSize(bytes, at);
      var (rest, end) := Walk(codec, bytes, next);
      ([LogRecord(record, at, next)] + rest, end)
  }

  function EncodeAll(codec: Codec, records: seq<Record>): Bytes
    requires Sane(codec) && forall i :: 0 <= i < |records| ==> Encodable(codec, records[i])
  {
    if |records| == 0 then [] else EncodeRecord(codec, records[0]) + EncodeAll(codec, records[1..])
  }

  /** The records with the offsets they have when the first is at `at`. */
  function Placed(codec: Codec, records: seq<Record>, at: nat): seq<LogRecord>
    requires Sane(codec) && forall i :: 0 <= i < |records| ==> Encodable(codec, records[i])
  {
    if |records| == 0 then []
    else
      var next := at + |EncodeRecord(codec, records[0])|;
      [LogRecord(records[0], at, next)] + Placed(codec, records[1..], next)
  }

  /** The tail left by a crash while appending: part of another encoded record, or nothing. */
  ghost predicate Torn(codec: Codec, tail: Bytes)
    requires Sane(codec)
  {
    tail == [] || exists r :: Encodable(codec, r) && tail < EncodeRecord(codec, r)
  }

  lemma StopsAtTail(codec: Codec, bytes: Bytes, at: nat)
    requires Sane(codec) && at <= |bytes| && Torn(codec, bytes[at..])
    ensures IntactAt(codec, bytes, at) == None
  {
    if bytes[at..] != [] {
      var r :| Encodable(codec, r) && bytes[at..] < EncodeRecord(codec, r);
      TornIsNotIntact(codec, r, bytes, at);
    }
  }

  /** How many records from the front are within bounds. */
  function Leading(codec: Codec, records: seq<Record>): (n: nat)
    ensures n <= |records|
    ensures forall i :: 0 <= i < n ==> InBounds(codec, records[i])
    ensures n < |records| ==> !InBounds(codec, records[n])
  {
    if |records| == 0 || !InBounds(codec, records[0]) then 0 else 1 + Leading(codec, records[1..])
  }

  /**
   * From any record boundary, the walk visits the records up to the first that is out of bounds and
   * stops there; a torn tail is never visited.
   */
  lemma {:induction false} WalkVisits(codec: Codec, before: Bytes, records: seq<Record>, tail: Bytes)
    requires Sane(codec) && Torn(codec, tail) && forall i :: 0 <= i < |records| ==> Encodable(codec, records[i])
    ensures var n := Leading(codec, records);
            Walk(codec, before + EncodeAll(codec, records) + tail, |before|)
            == (Placed(codec, records[..n], |before|), |before| + |EncodeAll(codec, records[..n])|)
    decreases |records|
  {
    hide Sane, Torn, IntactAt, EncodeRecord, FrameSize;
    var bytes, at := before + EncodeAll(codec, records) + tail, |before|;
    if |records| == 0 {
      assert bytes[at..] == tail;
      StopsAtTail(codec, bytes, at);
      assert records[..0] == [];
    } else {
      var first, e := records[0], EncodeRecord(codec, records[0]);
      assert bytes == (before + e) + EncodeAll(codec, records[1..]) + tail;
      assert bytes[at..at + |e|] == e;
      EncodedIsIntact(codec, first, bytes, at);
      if InBounds(codec, first) {
        EncodedSize(codec, first, bytes, at);
        WalkVisits(codec, before + e, records[1..], tail);
        var n := Leading(codec, records);
        hide InBounds, Leading;
        assert records[..n][0] == first && records[..n][1..] == records[1..][..n - 1];
      } else {
        assert records[..0] == [];
      }
    }
  }

  lemma EncodedSize(codec: Codec, r: Record, bytes: Bytes, at: nat)
    requires Sane(codec) && Encodable(codec, r)
    requires at + |EncodeRecord(codec, r)| <= |bytes|
             && bytes[at..at + |EncodeRecord(codec, r)|] == EncodeRecord(codec, r)
    ensures FrameSize(bytes, at) == |EncodeRecord(codec, r)|
  {
    BodyOfEncoded(codec, r, bytes, at);
  }

  /** So replay recovers everything that was appended exactly when every record is within bounds. */
  lemma WalkRecoversIffInBounds(codec: Codec, records: seq<Record>, tail: Bytes)
    requires Sane(codec) && Torn(codec, tail) && forall i :: 0 <= i < |records| ==> Encodable(codec, records[i])
    ensures Walk(codec, EncodeAll(codec, records) + tail, 0) == (Placed(codec, records, 0), |EncodeAll(codec, records)|)
            <==> forall i :: 0 <= i < |records| ==> InBounds(codec, records[i])
  {
    hide Sane, Torn, EncodeRecord, InBounds, Walk, Encodable;
    WalkVisits(codec, [], records, tail);
    assert [] + EncodeAll(codec, records) + tail == EncodeAll(codec, records) + tail;
    var n := Leading(codec, records);
    PlacedSize(codec, records, 0);
    PlacedSize(codec, records[..n], 0);
    if n == |records| { assert records[..n] == records; }
  }

  lemma {:induction false} PlacedSize(codec: Codec, records: seq<Record>, at: nat)
    requires Sane(codec) && forall i :: 0 <= i < |records| ==> Encodable(codec, records[i])
    ensures |Placed(codec, records, at)| == |records|
    ensures forall i :: 0 <= i < |records| ==> Placed(codec, records, at)[i].record == records[i]
    decreases |records|
  {
    hide Sane, Encodable, EncodeRecord;
    if |records| > 0 { PlacedSize(codec, records[1..], at + |EncodeRecord(codec, records[0])|); }
  }

  lemma LeadingAll(codec: Codec, records: seq<Record>)
    requires forall i :: 0 <= i < |records| ==> InBounds(codec, records[i])
    ensures Leading(codec, records) == |records|
  {
  }

  /** Cutting the file where the walk stopped does not change the walk. */
  lemma {:induction false} WalkAfterCut(codec: Codec, bytes: Bytes, at: nat)
    requires at <= |bytes|
    ensures var end := Walk(codec, bytes, at).1; Walk(codec, bytes[..end], at) == Walk(codec, bytes, at)
    decreases |bytes| - at
  {
    var end := Walk(codec, bytes, at).1;
    if IntactAt(codec, bytes, at).Some? {
      var next := at + FrameSize(bytes, at);
      WalkAfterCut(codec, bytes, next);
      IntactInside(codec, bytes, at, end);
      hide IntactAt, FrameAt;
    } else {
      CutIsNothing(codec, bytes, at);
    }
  }

  /** Nothing intact starts at the very end of a file. */
  lemma CutIsNothing(codec: Codec, bytes: Bytes, at: nat)
    requires at <= |bytes|
    ensures IntactAt(codec, bytes[..at], at).None?
  {
  }

  /** Whether a record is intact depends only on its own bytes. */
  lemma IntactInside(codec: Codec, bytes: Bytes, at: nat, end: nat)
    requires IntactAt(codec, bytes, at).Some? && at + FrameSize(bytes, at) <= end <= |bytes|
    ensures IntactAt(codec, bytes[..end], at) == IntactAt(codec, bytes, at)
    ensures FrameAt(bytes[..end], at) == FrameAt(bytes, at)
  {
    var f := FrameAt(bytes, at);
    assert FrameAt(bytes[..end], at) == f;
    assert BodyAt(bytes[..end], at, f) == BodyAt(bytes, at, f);
  }

  // ---------------------------------------------------------------- reading one record

  datatype Read = Ok(record: LogRecord) | NoRecord | CorruptFrame | TornRecord | CrcMismatch | BadHeader

  /** Read the record at an offset, as partial rebuilds do from the batch index. */
  function ReadLogRecordAt(codec: Codec, bytes: Bytes, at: nat): Read {
    if at + FRAME_BYTES > |bytes| then NoRecord
    else
      var f := FrameAt(bytes, at);
      if f.magic != LOG_MAGIC || f.headerLength == 0 || f.headerLength > MAX_HEADER_BYTES then CorruptFrame
      else if Past(at, f) > |bytes| then TornRecord
      else
        var body := BodyAt(bytes, at, f);
        if codec.crc32(body, 0) != f.crc then CrcMismatch
        else
          match codec.parse(body[..f.headerLength])
          case None => BadHeader
          case Some(h) => Ok(LogRecord(Record(h, body[f.headerLength..]), at, Past(at, f)))
  }

  /** Every record a replay visits reads back the same at its offset, before and after truncation. */
  lemma {:induction false} VisitedReadsBack(codec: Codec, bytes: Bytes, at: nat, i: nat)
    requires at <= |bytes| && i < |Walk(codec, bytes, at).0|
    ensures var (visited, end) := Walk(codec, bytes, at);
            && ReadLogRecordAt(codec, bytes, visited[i].offset) == Ok(visited[i])
            && ReadLogRecordAt(codec, bytes[..end], visited[i].offset) == Ok(visited[i])
    decreases |bytes| - at
  {
    assert IntactAt(codec, bytes, at).Some?;
    var next := at + FrameSize(bytes, at);
    var end := Walk(codec, bytes, at).1;
    hide IntactAt, FrameSize, ReadLogRecordAt;
    if i == 0 {
      IntactReadsBack(codec, bytes, at, end);
    } else {
      VisitedReadsBack(codec, bytes, next, i - 1);
    }
  }

  lemma IntactReadsBack(codec: Codec, bytes: Bytes, at: nat, end: nat)
    requires IntactAt(codec, bytes, at).Some? && at + FrameSize(bytes, at) <= end <= |bytes|
    ensures var r := LogRecord(IntactAt(codec, bytes, at).value, at, at + FrameSize(bytes, at));
            ReadLogRecordAt(codec, bytes, at) == Ok(r) && ReadLogRecordAt(codec, bytes[..end], at) == Ok(r)
  {
    var f := FrameAt(bytes, at);
    assert FrameAt(bytes[..end], at) == f;
    assert BodyAt(bytes[..end], at, f) == BodyAt(bytes, at, f);
    hide FrameAt, BodyAt;
  }

  // ---------------------------------------------------------------- the file

  class LogFile {
    var bytes: Bytes

    constructor (bytes: Bytes)
      ensures this.bytes == bytes
    {
      this.bytes := bytes;
    }
  }

  datatype ReplayResult = ReplayResult(endOffset: nat, records: nat, truncatedBytes: nat)

  /** Visit the intact records from an offset, then cut the file where they end. */
  method ReplayLog(codec: Codec, file: LogFile, fromOffset: nat) returns (result: ReplayResult, visited: seq<LogRecord>)
    modifies file
    ensures var start := if fromOffset < |old(file.bytes)| then fromOffset else |old(file.bytes)|;
            var (records, end) := Walk(codec, old(file.bytes), start);
            && visited == records && file.bytes == old(file.bytes)[..end]
            && result == ReplayResult(end, |records|, |old(file.bytes)| - end)
  {
    hide IntactAt, FrameSize;
    var size := |file.bytes|;
    var start := if fromOffset < size then fromOffset else size;
    var offset := start;
    visited := [];
    ghost var goal := Walk(codec, file.bytes, start);
    assert visited + goal.0 == goal.0;
    while offset < size
      invariant start <= offset <= size && file.bytes == old(file.bytes)
      invariant goal == (visited + Walk(codec, file.bytes, offset).0, Walk(codec, file.bytes, offset).1)
      decreases size - offset
    {
      var next := NextRecord(codec, file.bytes, offset);
      if next.None? {
        break;
      }
      ghost var rest := Walk(codec, file.bytes, next.value.nextOffset);
      assert Walk(codec, file.bytes, offset) == ([next.value] + rest.0, rest.1);
      assert visited + ([next.value] + rest.0) == (visited + [next.value]) + rest.0;
      visited := visited + [next.value];
      offset := next.value.nextOffset;
    }
    assert Walk(codec, file.bytes, offset) == ([], offset) by { StopsAtEnd(codec, file.bytes, offset); }
    assert visited + [] == visited;
    var truncatedBytes := size - offset;
    if truncatedBytes > 0 {
      file.bytes := file.bytes[..offset];
    } else {
      assert file.bytes[..offset] == file.bytes;
    }
    result := ReplayResult(offset, |visited|, truncatedBytes);
  }

  lemma StopsAtEnd(codec: Codec, bytes: Bytes, at: nat)
    requires at <= |bytes| && (at < |bytes| ==> IntactAt(codec, bytes, at).None?)
    ensures Walk(codec, bytes, at) == ([], at)
  {
  }

  /** The checks replay makes on the bytes at an offset, in its order. */
  method NextRecord(codec: Codec, bytes: Bytes, offset: nat) returns (next: Option<LogRecord>)
    requires offset < |bytes|
    ensures next.None? <==> IntactAt(codec, bytes, offset).None?
    ensures next.Some? ==>
              next.value == LogRecord(IntactAt(codec, bytes, offset).value, offset, offset + FrameSize(bytes, offset))
  {
    if |bytes| - offset < FRAME_BYTES {
      return None; // torn frame
    }
    var f := FrameAt(bytes, offset);
    if f.magic != LOG_MAGIC || f.headerLength == 0 || f.headerLength > MAX_HEADER_BYTES
       || f.payloadLength > MAX_PAYLOAD_BYTES || |bytes| - offset - FRAME_BYTES < f.headerLength + f.payloadLength {
      return None; // corrupt frame or torn body
    }
    var body := BodyAt(bytes, offset, f);
    if codec.crc32(body, 0) != f.crc {
      return None;
    }
    var header := codec.parse(body[..f.headerLength]);
    if header.None? {
      return None;
    }
    return Some(LogRecord(Record(header.value, body[f.headerLength..]), offset, offset + FRAME_BYTES + |body|));
  }

  class BatchLogWriter {
    const file: LogFile
    var endOffset: nat
    var open: bool

    ghost predicate Valid() reads this, file {
      endOffset == |file.bytes|
    }

    constructor (file: LogFile)
      ensures this.file == file && open && Valid()
    {
      this.file := file;
      endOffset, open := |file.bytes|, true;
    }

    /** Append one record, however many writes it takes; nothing is written once closed. */
    method Append(codec: Codec, r: Record) returns (end: Option<nat>)
      requires Sane(codec) && Encodable(codec, r) && Valid()
      modifies this, file
      ensures Valid() && open == old(open)
      ensures open ==> file.bytes == old(file.bytes) + EncodeRecord(codec, r) && end == Some(|file.bytes|)
      ensures !open ==> file.bytes == old(file.bytes) && end == None
    {
      hide Sane, Encodable, EncodeRecord;
      if !open {
        return None;
      }
      var encoded := EncodeRecord(codec, r);
      var written := 0;
      while written < |encoded|
        invariant written <= |encoded| && open && endOffset == |old(file.bytes)|
        invariant file.bytes == old(file.bytes) + encoded[..written]
        decreases |encoded| - written
      {
        var n :| 0 < n <= |encoded| - written; // the operating system takes some of it
        assert encoded[..written + n] == encoded[..written] + encoded[written..written + n];
        file.bytes := file.bytes + encoded[written..written + n];
        written := written + n;
      }
      assert encoded[..|encoded|] == encoded;
      endOffset := endOffset + |encoded|;
      return Some(endOffset);
    }

    method Close()
      modifies this
      ensures !open && endOffset == old(endOffset)
    {
      open := false;
    }
  }

  /**
   * A process that died while appending: replay from any record boundary visits exactly the
   * remaining records, cuts exactly the torn bytes, and a second replay has nothing to cut.
   */
  method RecoverTorn(codec: Codec, file: LogFile, done: seq<Record>, rest: seq<Record>, tail: Bytes)
    returns (first: ReplayResult, again: ReplayResult, visited: seq<LogRecord>)
    requires Sane(codec) && Torn(codec, tail)
    requires forall i :: 0 <= i < |done| ==> Encodable(codec, done[i])
    requires forall i :: 0 <= i < |rest| ==> Encodable(codec, rest[i]) && InBounds(codec, rest[i])
    requires file.bytes == EncodeAll(codec, done) + EncodeAll(codec, rest) + tail
    modifies file
    ensures file.bytes == EncodeAll(codec, done) + EncodeAll(codec, rest)
    ensures visited == Placed(codec, rest, |EncodeAll(codec, done)|)
    ensures first == ReplayResult(|file.bytes|, |rest|, |tail|)
    ensures again == ReplayResult(|file.bytes|, |rest|, 0)
    ensures forall i :: 0 <= i < |visited| ==> ReadLogRecordAt(codec, file.bytes, visited[i].offset) == Ok(visited[i])
  {
    hide Sane, Torn, Encodable, InBounds, Walk, IntactAt, EncodeAll, Placed, ReadLogRecordAt, EncodeRecord, Leading;
    ghost var bytes := file.bytes;
    var at := |EncodeAll(codec, done)|;
    WalkVisits(codec, EncodeAll(codec, done), rest, tail);
    PlacedSize(codec, rest, at);
    LeadingAll(codec, rest);
    assert rest[..|rest|] == rest;
    first, visited := ReplayLog(codec, file, at);
    assert file.bytes == EncodeAll(codec, done) + EncodeAll(codec, rest);
    forall i | 0 <= i < |visited|
      ensures ReadLogRecordAt(codec, file.bytes, visited[i].offset) == Ok(visited[i])
    {
      VisitedReadsBack(codec, bytes, at, i);
    }
    WalkAfterCut(codec, bytes, at);
    var revisited;
    again, revisited := ReplayLog(codec, file, at);
  }

  // ---------------------------------------------------------------- the log as records

  /**
   * The bytes hold these records and then, when `torn`, part of another. This is how the store's
   * state machine sees a log file.
   */
  ghost predicate Represents(codec: Codec, bytes: Bytes, records: seq<Record>, torn: bool)
    requires Sane(codec)
  {
    && (forall i :: 0 <= i < |records| ==> Encodable(codec, records[i]) && InBounds(codec, records[i]))
    && EncodeAll(codec, records) <= bytes
    && Torn(codec, bytes[|EncodeAll(codec, records)|..])
    && torn == (bytes != EncodeAll(codec, records))
  }

  lemma {:induction false} EncodeAllAppend(codec: Codec, records: seq<Record>, r: Record)
    requires Sane(codec) && Encodable(codec, r) && forall i :: 0 <= i < |records| ==> Encodable(codec, records[i])
    ensures EncodeAll(codec, records + [r]) == EncodeAll(codec, records) + EncodeRecord(codec, r)
    decreases |records|
  {
    hide Sane, EncodeRecord, Encodable;
    if |records| == 0 {
      assert EncodeAll(codec, [r][1..]) == [];
      assert records + [r] == [r];
    } else {
      EncodeAllAppend(codec, records[1..], r);
      assert (records + [r])[1..] == records[1..] + [r];
    }
  }

  /** Walking the bytes from the start finds the records they represent. */
  lemma RepresentsIsWalk(codec: Codec, bytes: Bytes, records: seq<Record>, torn: bool)
    requires Sane(codec) && Represents(codec, bytes, records, torn)
    ensures Walk(codec, bytes, 0) == (Placed(codec, records, 0), |EncodeAll(codec, records)|)
    ensures torn <==> Walk(codec, bytes, 0).1 < |bytes|
  {
    hide Sane, Torn, InBounds, Walk, Encodable, EncodeAll, Placed;
    var all := EncodeAll(codec, records);
    var tail := bytes[|all|..];
    assert bytes == all + tail;
    WalkRecoversIffInBounds(codec, records, tail);
  }

  /** So bytes represent at most one log. */
  lemma RepresentsOne(codec: Codec, bytes: Bytes, a: seq<Record>, torn: bool, b: seq<Record>, torn': bool)
    requires Sane(codec) && Represents(codec, bytes, a, torn) && Represents(codec, bytes, b, torn')
    ensures a == b && torn == torn'
  {
    RepresentsIsWalk(codec, bytes, a, torn);
    RepresentsIsWalk(codec, bytes, b, torn');
    PlacedSize(codec, a, 0);
    PlacedSize(codec, b, 0);
    hide Sane, Represents, Walk, Placed;
  }

  /** The state machine's append, torn append and truncation are what the bytes go through. */
  lemma BytesFollowSteps(codec: Codec, bytes: Bytes, records: seq<Record>, r: Record, cut: nat)
    requires Sane(codec) && Represents(codec, bytes, records, false) && Encodable(codec, r) && InBounds(codec, r)
    requires cut < |EncodeRecord(codec, r)|
    ensures Represents(codec, bytes + EncodeRecord(codec, r), records + [r], false)
    ensures Represents(codec, bytes + EncodeRecord(codec, r)[..cut], records, cut > 0)
  {
    var e := EncodeRecord(codec, r);
    EncodeAllAppend(codec, records, r);
    hide Sane, EncodeRecord, Encodable, InBounds, EncodeAll;
    assert (bytes + e)[|bytes + e|..] == [];
    var torn := bytes + e[..cut];
    assert torn[|bytes|..] == e[..cut] < e;
    assert Torn(codec, torn[|bytes|..]);
  }

  lemma TruncationCutsTheTail(codec: Codec, bytes: Bytes, records: seq<Record>, torn: bool)
    requires Sane(codec) && Represents(codec, bytes, records, torn)
    ensures Represents(codec, bytes[..Walk(codec, bytes, 0).1], records, false)
  {
    RepresentsIsWalk(codec, bytes, records, torn);
    hide Sane, EncodeRecord, Encodable, InBounds, Walk, EncodeAll;
    var all := EncodeAll(codec, records);
    assert bytes[..|all|] == all;
    assert all[|all|..] == [];
  }

  // ---------------------------------------------------------------- a codec, and a record it loses

  /** A header that says nothing but its timestamp, `n` characters long. */
  function Stamped(n: nat): Header {
    Header(1, 1, seq(n, _ => '0'), 0, Pose(Vec(0.0, 0.0, 0.0), Quat(0.0, 0.0, 0.0, 1.0)), None)
  }

  function Zeros(n: nat): Bytes {
    seq(n, _ => 0)
  }

  /** Writes a header as long as its timestamp, and reads such headers back. */
  function Plain(): Codec {
    Codec((h: Header) => Zeros(|h.timestamp| + 1),
          (b: Bytes) => if |b| > 0 then Some(Stamped(|b| - 1)) else None,
          (b: Bytes, seed: nat) => (seed + |b|) % U32)
  }

  lemma PlainIsSane()
    ensures Sane(Plain()) && forall n: nat :: RoundTrips(Plain(), Stamped(n))
  {
    var codec := Plain();
    assert forall n: nat :: RoundTrips(codec, Stamped(n));
    forall a: Bytes, b: Bytes ensures codec.crc32(a + b, 0) == codec.crc32(b, codec.crc32(a, 0)) {
      assert |a + b| == |a| + |b|;
    }
    hide RoundTrips, Plain;
  }

  function ShortRecord(): Record {
    Record(Stamped(1), [])
  }

  /** A record whose header is one byte past what replay accepts. */
  function LongRecord(): Record {
    Record(Stamped(MAX_HEADER_BYTES), [])
  }

  /** Appending takes such a record; replay stops in front of it, and loses the sound record behind it too. */
  lemma LongHeaderIsLost()
    ensures Sane(Plain()) && Encodable(Plain(), ShortRecord()) && Encodable(Plain(), LongRecord())
    ensures InBounds(Plain(), ShortRecord()) && !InBounds(Plain(), LongRecord())
    ensures var log := [ShortRecord(), LongRecord(), ShortRecord()];
            Walk(Plain(), EncodeAll(Plain(), log), 0)
            == (Placed(Plain(), [ShortRecord()], 0), |EncodeRecord(Plain(), ShortRecord())|)
  {
    var codec, a, b := Plain(), ShortRecord(), LongRecord();
    PlainIsSane();
    assert Encodable(codec, a) && Encodable(codec, b) && InBounds(codec, a) && !InBounds(codec, b);
    hide Plain, ShortRecord, LongRecord, Sane, Encodable, InBounds;
    LostFrom(codec, a, b, [a]);
  }

  lemma LostFrom(codec: Codec, a: Record, b: Record, rest: seq<Record>)
    requires Sane(codec) && Encodable(codec, a) && InBounds(codec, a) && Encodable(codec, b) && !InBounds(codec, b)
    requires forall i :: 0 <= i < |rest| ==> Encodable(codec, rest[i])
    ensures var log := [a, b] + rest;
            && (forall i :: 0 <= i < |log| ==> Encodable(codec, log[i]))
            && Walk(codec, EncodeAll(codec, log), 0) == (Placed(codec, [a], 0), |EncodeRecord(codec, a)|)
  {
    hide Sane, Walk, EncodeRecord, Encodable, InBounds;
    var log := [a, b] + rest;
    assert log[1..][0] == b;
    assert Leading(codec, log) == 1 + Leading(codec, log[1..]) && Leading(codec, log[1..]) == 0;
    assert Torn(codec, []);
    WalkVisits(codec, [], log, []);
    assert [] + EncodeAll(codec, log) + [] == EncodeAll(codec, log);
    assert log[..1] == [a];
    assert [a][1..] == [] && EncodeAll(codec, [a]) == EncodeRecord(codec, a) + EncodeAll(codec, []);
  }
}
