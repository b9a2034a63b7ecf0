/** The log's format byte by byte, and what each of its three readers takes for a record. */
module LogFormat {
  import opened Voxels
  import opened BatchLog
  import LogTail
  import Inlets

  /** Four bytes as a number, the lowest first. */
  function Word(b: Bytes, at: nat): nat
    requires at + 4 <= |b|
  {
    b[at] as nat + 0x100 * b[at + 1] as nat + 0x1_0000 * b[at + 2] as nat + 0x100_0000 * b[at + 3] as nat
  }

  /** The letters PCVL. */
  predicate Marked(b: Bytes, at: nat)
    requires at + 4 <= |b|
  {
    b[at] == 0x50 && b[at + 1] == 0x43 && b[at + 2] == 0x56 && b[at + 3] == 0x4c
  }

  lemma MarkIsMagic(b: Bytes, at: nat)
    requires at + 4 <= |b|
    ensures ReadU32(b, at) == Word(b, at)
    ensures ReadU32(b, at) == LOG_MAGIC <==> Marked(b, at)
  {
  }

  /** A record on disk: the mark, the two lengths, the checksum of what follows, the header's JSON, the payload. */
  lemma RecordLayout(codec: Codec, r: Record)
    requires Sane(codec) && Encodable(codec, r)
    ensures var e, header := EncodeRecord(codec, r), codec.stringify(r.header);
            && |e| == 16 + |header| + |r.payload| && Marked(e, 0)
            && Word(e, 4) == |header| && Word(e, 8) == |r.payload|
            && Word(e, 12) == codec.crc32(header + r.payload, 0)
            && e[16..16 + |header|] == header && e[16 + |header|..] == r.payload
  {
    var e := EncodeRecord(codec, r);
    assert e[0..0 + |e|] == e[..|e|];
    FrameOfEncoded(codec, r, e, 0, |e|);
    MarkIsMagic(e, 0);
    MarkIsMagic(e, 4);
    MarkIsMagic(e, 8);
    MarkIsMagic(e, 12);
  }

  // ---------------------------------------------------------------- the bytes at an offset

  /** A frame begins here: enough bytes for it, and the mark. */
  predicate Framed(b: Bytes, at: nat) {
    at + 16 <= |b| && Marked(b, at)
  }

  /** All the bytes the frame announces are there. */
  predicate Complete(b: Bytes, at: nat) {
    Framed(b, at) && at + 16 + Word(b, at + 4) + Word(b, at + 8) <= |b|
  }

  /** And add up to its checksum. */
  predicate Checked(codec: Codec, b: Bytes, at: nat) {
    Complete(b, at) && codec.crc32(b[at + 16..at + 16 + Word(b, at + 4) + Word(b, at + 8)], 0) == Word(b, at + 12)
  }

  /** The bytes hold this record. */
  predicate Holds(codec: Codec, b: Bytes, at: nat, r: Record) {
    && Checked(codec, b, at)
    && codec.parse(b[at + 16..at + 16 + Word(b, at + 4)]) == Some(r.header)
    && r.payload == b[at + 16 + Word(b, at + 4)..at + 16 + Word(b, at + 4) + Word(b, at + 8)]
  }

  lemma FrameSays(b: Bytes, at: nat)
    requires at + 16 <= |b|
    ensures var f := FrameAt(b, at);
            && (f.magic == LOG_MAGIC <==> Marked(b, at))
            && f.headerLength == Word(b, at + 4) && f.payloadLength == Word(b, at + 8) && f.crc == Word(b, at + 12)
  {
    MarkIsMagic(b, at);
    MarkIsMagic(b, at + 4);
    MarkIsMagic(b, at + 8);
    MarkIsMagic(b, at + 12);
  }

  lemma BodySays(b: Bytes, at: nat)
    requires Complete(b, at)
    ensures var f, h, p := FrameAt(b, at), Word(b, at + 4), Word(b, at + 8);
            && Past(at, f) == at + 16 + h + p && BodyAt(b, at, f) == b[at + 16..at + 16 + h + p]
            && BodyAt(b, at, f)[..h] == b[at + 16..at + 16 + h]
            && BodyAt(b, at, f)[h..] == b[at + 16 + h..at + 16 + h + p]
  {
    FrameSays(b, at);
  }

  // ---------------------------------------------------------------- replay

  /** A header that is not empty and at most 64 KiB, and a payload shorter than 2 GiB. */
  predicate Bounded(b: Bytes, at: nat) {
    at + 16 <= |b| && 0 < Word(b, at + 4) <= 65536 && Word(b, at + 8) <= 2147483647
  }

  /** The server replays exactly the records within these bounds. */
  lemma ReplaysExactly(codec: Codec, b: Bytes, at: nat, r: Record)
    requires at <= |b|
    ensures IntactAt(codec, b, at) == Some(r)
            <==> Holds(codec, b, at, r) && Bounded(b, at)
  {
    if at + 16 <= |b| { FrameSays(b, at); }
    if Complete(b, at) { BodySays(b, at); }
    hide FrameAt, Word, Marked;
  }

  /** Records back to back from an offset, each held by the bytes where it is, up to an end. */
  ghost predicate BackToBack(codec: Codec, b: Bytes, at: nat, visited: seq<LogRecord>, end: nat) {
    && (forall i :: 0 <= i < |visited| ==> IsAt(codec, b, visited[i]))
    && (forall i :: 0 < i < |visited| ==> visited[i].offset == visited[i - 1].nextOffset)
    && if |visited| == 0 then end == at
       else visited[0].offset == at && visited[|visited| - 1].nextOffset == end
  }

  ghost predicate IsAt(codec: Codec, b: Bytes, v: LogRecord) {
    && Holds(codec, b, v.offset, v.record)
    && v.nextOffset == v.offset + 16 + Word(b, v.offset + 4) + Word(b, v.offset + 8)
  }

  lemma OneMore(codec: Codec, b: Bytes, v: LogRecord, rest: seq<LogRecord>, end: nat)
    requires IsAt(codec, b, v) && BackToBack(codec, b, v.nextOffset, rest, end)
    ensures BackToBack(codec, b, v.offset, [v] + rest, end)
  {
    hide IsAt;
  }

  /** Replay visits records back to back and stops at the first bytes that do not hold one. */
  lemma {:induction false} WalksExactly(codec: Codec, b: Bytes, at: nat)
    requires at <= |b|
    ensures var (visited, end) := Walk(codec, b, at);
            && BackToBack(codec, b, at, visited, end)
            && forall r :: Holds(codec, b, end, r) ==> !Bounded(b, end)
    decreases |b| - at
  {
    hide Holds, Bounded, FrameAt, Word;
    match IntactAt(codec, b, at) {
      case None =>
        forall r | Holds(codec, b, at, r) ensures !Bounded(b, at) {
          ReplaysExactly(codec, b, at, r);
        }
      case Some(r) =>
        ReplaysExactly(codec, b, at, r);
        HoldsSays(codec, b, at, r);
        var next := at + FrameSize(b, at);
        WalksExactly(codec, b, next);
        var (rest, end) := Walk(codec, b, next);
        OneMore(codec, b, LogRecord(r, at, next), rest, end);
        hide BackToBack;
    }
  }

  lemma HoldsSays(codec: Codec, b: Bytes, at: nat, r: Record)
    requires Holds(codec, b, at, r)
    ensures Complete(b, at) && FrameSize(b, at) == 16 + Word(b, at + 4) + Word(b, at + 8)
  {
    BodySays(b, at);
  }

  /** Reading one record back fails for exactly the first thing that is wrong. */
  lemma ReadsExactly(codec: Codec, b: Bytes, at: nat)
    requires at <= |b|
    ensures var h := if at + 8 <= |b| then Word(b, at + 4) else 0;
            match ReadLogRecordAt(codec, b, at)
            case NoRecord => at + 16 > |b|
            case CorruptFrame => at + 16 <= |b| && (!Marked(b, at) || h == 0 || h > 65536)
            case TornRecord => Framed(b, at) && 0 < h <= 65536 && !Complete(b, at)
            case CrcMismatch => Complete(b, at) && 0 < h <= 65536 && !Checked(codec, b, at)
            case BadHeader => Checked(codec, b, at) && 0 < h <= 65536 && codec.parse(b[at + 16..at + 16 + h]).None?
            case Ok(v) =>
              && Holds(codec, b, at, v.record) && 0 < h <= 65536 && v.offset == at
              && v.nextOffset == at + 16 + h + Word(b, at + 8)
  {
    if at + 16 <= |b| { FrameSays(b, at); }
    if Complete(b, at) { BodySays(b, at); }
    hide FrameAt, Word, Marked;
  }

  // ---------------------------------------------------------------- the sidecar

  /** The sidecar's parser stops, waits and raises for exactly these bytes; any size of header will do. */
  lemma SidecarReadsExactly(codec: Codec, decodable: Record -> bool, b: Bytes, at: nat)
    requires at <= |b|
    ensures match LogTail.ItemAt(codec, decodable, b, at)
            case Wait => at + 16 > |b| || (Framed(b, at) && Word(b, at + 4) > 0 && !Complete(b, at))
            case Stop => at + 16 <= |b| && (!Marked(b, at) || Word(b, at + 4) == 0
                                            || (Complete(b, at) && !Checked(codec, b, at)))
            case Fail =>
              && Checked(codec, b, at) && Word(b, at + 4) > 0
              && forall r :: Holds(codec, b, at, r) ==> !decodable(r)
            case Got(r, next) =>
              && Holds(codec, b, at, r) && Word(b, at + 4) > 0 && decodable(r)
              && next == at + 16 + Word(b, at + 4) + Word(b, at + 8)
  {
    if at + 16 <= |b| { FrameSays(b, at); }
    if Complete(b, at) { BodySays(b, at); }
    hide FrameAt, Word, Marked;
  }

  // ---------------------------------------------------------------- the inlet

  /** A message is a batch exactly when it is one whole record, and control exactly when it has no mark. */
  lemma ArrivesExactly(codec: Codec, controlOf: Bytes -> Option<Inlets.Control>, b: Bytes)
    ensures match Inlets.ParseMessage(codec, controlOf, b)
            case BatchMessage(r) => Holds(codec, b, 0, r) && |b| == 16 + Word(b, 4) + Word(b, 8)
            case ControlMessage(c) => !Framed(b, 0) && controlOf(b) == Some(c)
            case Invalid =>
              if Framed(b, 0) then |b| == 16 + Word(b, 4) + Word(b, 8) ==> forall r :: !Holds(codec, b, 0, r)
              else controlOf(b).None?
  {
    if 16 <= |b| { FrameSays(b, 0); }
    if Complete(b, 0) {
      BodySays(b, 0);
      var h, p := Word(b, 4), Word(b, 8);
      if |b| == 16 + h + p { assert b[16..16 + h + p] == b[16..] && b[16 + h..16 + h + p] == b[16..][h..]; }
    }
    hide FrameAt, Word, Marked;
  }
}
