/** The alignment sidecar's resumable parser of a growing log. */
module LogTail {
  import opened Voxels
  import opened BatchLog

  /** What the bytes at an offset are to the parser: too few yet, not to be trusted, an exception, or a batch. */
  datatype Item = Wait | Stop | Fail | Got(record: Record, next: nat)

  datatype Parsed = Parsed(batches: seq<Record>, consumed: nat) | Raised

  /** `decodable` says whether a record's header fields and points decode without an exception. */
  function ItemAt(codec: Codec, decodable: Record -> bool, data: Bytes, at: nat): (item: Item)
    requires at <= |data|
    ensures item.Got? ==> at < item.next <= |data|
  {
    if |data| - at < FRAME_BYTES then Wait
    else
      var f := FrameAt(data, at);
      if f.magic != LOG_MAGIC || f.headerLength == 0 then Stop
      else if Past(at, f) > |data| then Wait
      else
        var body := BodyAt(data, at, f);
        if codec.crc32(body, 0) != f.crc then Stop
        else
          match codec.parse(body[..f.headerLength])
          case None => Fail
          case Some(h) =>
            var record := Record(h, body[f.headerLength..]);
            if decodable(record) then Got(record, Past(at, f)) else Fail
  }

  function ParseFrom(codec: Codec, decodable: Record -> bool, data: Bytes, at: nat): (p: Parsed)
    requires at <= |data|
    ensures p.Parsed? ==> at <= p.consumed <= |data|
    decreases |data| - at
  {
    match ItemAt(codec, decodable, data, at)
    case Got(record, next) =>
      (match ParseFrom(codec, decodable, data, next)
       case Raised => Raised
       case Parsed(rest, consumed) => Parsed([record] + rest, consumed))
    case Fail => Raised
    case _ => Parsed([], at)
  }

  method ParseRecords(codec: Codec, decodable: Record -> bool, data: Bytes) returns (p: Parsed)
    ensures p == ParseFrom(codec, decodable, data, 0)
  {
    hide ItemAt;
    var batches, offset := [], 0;
    ghost var goal := ParseFrom(codec, decodable, data, 0);
    ghost var rest := goal;
    while true
      invariant offset <= |data| && rest == ParseFrom(codec, decodable, data, offset)
      invariant goal == After(batches, rest)
      decreases |data| - offset
    {
      match ItemAt(codec, decodable, data, offset)
      case Got(record, next) =>
        ghost var later := ParseFrom(codec, decodable, data, next);
        AfterOne(batches, record, later);
        batches, offset, rest := batches + [record], next, later;
      case Fail =>
        return Raised;
      case _ =>
        assert batches + [] == batches;
        return Parsed(batches, offset);
    }
  }

  /** Batches already in hand before the rest was parsed. */
  function After(batches: seq<Record>, rest: Parsed): Parsed {
    match rest
    case Raised => Raised
    case Parsed(more, consumed) => Parsed(batches + more, consumed)
  }

  lemma AfterOne(batches: seq<Record>, record: Record, rest: Parsed)
    ensures After(batches, After([record], rest)) == After(batches + [record], rest)
  {
    if rest.Parsed? { assert batches + ([record] + rest.batches) == (batches + [record]) + rest.batches; }
  }

  // ---------------------------------------------------------------- feeding pieces

  /** Batches so far and the bytes not consumed yet, or an exception. */
  datatype Tail = Tail(batches: seq<Record>, pending: Bytes) | Dead

  function Remainder(data: Bytes, p: Parsed): Tail
    requires p.Parsed? ==> p.consumed <= |data|
  {
    match p
    case Raised => Dead
    case Parsed(batches, consumed) => Tail(batches, data[consumed..])
  }

  function FeedOne(codec: Codec, decodable: Record -> bool, tail: Tail, piece: Bytes): Tail {
    match tail
    case Dead => Dead
    case Tail(batches, pending) =>
      match Remainder(pending + piece, ParseFrom(codec, decodable, pending + piece, 0))
      case Dead => Dead
      case Tail(more, rest) => Tail(batches + more, rest)
  }

  function Feed(codec: Codec, decodable: Record -> bool, pieces: seq<Bytes>): Tail {
    if |pieces| == 0 then Tail([], [])
    else FeedOne(codec, decodable, Feed(codec, decodable, pieces[..|pieces| - 1]), pieces[|pieces| - 1])
  }

  function Concat(pieces: seq<Bytes>): Bytes {
    if |pieces| == 0 then [] else Concat(pieces[..|pieces| - 1]) + pieces[|pieces| - 1]
  }

  /** The tailing loop: each read is parsed behind what the last one left over. */
  class LogTailer {
    var batches: seq<Record>
    var pending: Bytes
    var dead: bool

    function State(): Tail reads this {
      if dead then Dead else Tail(batches, pending)
    }

    constructor ()
      ensures State() == Tail([], [])
    {
      batches, pending, dead := [], [], false;
    }

    method Read(codec: Codec, decodable: Record -> bool, data: Bytes)
      modifies this
      ensures State() == FeedOne(codec, decodable, old(State()), data)
    {
      if dead { return; }
      var p := ParseRecords(codec, decodable, pending + data);
      match p
      case Raised => dead := true;
      case Parsed(more, consumed) =>
        batches := batches + more;
        pending := (pending + data)[consumed..];
    }
  }

  // ---------------------------------------------------------------- split invariance

  /** More bytes never change what was decided about earlier ones. */
  lemma ItemStays(codec: Codec, decodable: Record -> bool, a: Bytes, b: Bytes, at: nat)
    requires at <= |a| && !ItemAt(codec, decodable, a, at).Wait?
    ensures ItemAt(codec, decodable, a + b, at) == ItemAt(codec, decodable, a, at)
  {
    var f := FrameAt(a, at);
    assert FrameAt(a + b, at) == f;
    if Past(at, f) <= |a| { assert BodyAt(a + b, at, f) == BodyAt(a, at, f); }
  }

  /** Dropping consumed bytes shifts the offsets and nothing else. */
  lemma ItemShifts(codec: Codec, decodable: Record -> bool, data: Bytes, cut: nat, at: nat)
    requires cut + at <= |data|
    ensures var whole, part := ItemAt(codec, decodable, data, cut + at), ItemAt(codec, decodable, data[cut..], at);
            if part.Got? then whole == Got(part.record, cut + part.next) else whole == part
  {
    if cut + at + FRAME_BYTES <= |data| {
      var f := FrameAt(data, cut + at);
      assert FrameAt(data[cut..], at) == f;
      if Past(cut + at, f) <= |data| { assert BodyAt(data[cut..], at, f) == BodyAt(data, cut + at, f); }
    }
  }

  function Shifted(p: Parsed, cut: nat): Parsed {
    match p
    case Raised => Raised
    case Parsed(batches, consumed) => Parsed(batches, consumed + cut)
  }

  lemma {:induction false} ParseShifts(codec: Codec, decodable: Record -> bool, data: Bytes, cut: nat, at: nat)
    requires cut + at <= |data|
    ensures ParseFrom(codec, decodable, data, cut + at) == Shifted(ParseFrom(codec, decodable, data[cut..], at), cut)
    decreases |data| - at
  {
    hide ItemAt;
    ItemShifts(codec, decodable, data, cut, at);
    var item := ItemAt(codec, decodable, data[cut..], at);
    if item.Got? { ParseShifts(codec, decodable, data, cut, item.next); }
  }

  /** Parsing all of it is parsing the front, then the remainder with the rest behind it. */
  lemma {:induction false} ParseContinues(codec: Codec, decodable: Record -> bool, a: Bytes, b: Bytes, at: nat)
    requires at <= |a|
    ensures ParseFrom(codec, decodable, a + b, at) ==
              match ParseFrom(codec, decodable, a, at)
              case Raised => Raised
              case Parsed(batches, consumed) => After(batches, ParseFrom(codec, decodable, a + b, consumed))
    decreases |a| - at
  {
    hide ItemAt;
    var item := ItemAt(codec, decodable, a, at);
    if !item.Wait? { ItemStays(codec, decodable, a, b, at); }
    match item {
      case Got(record, next) =>
        ParseContinues(codec, decodable, a, b, next);
        var front := ParseFrom(codec, decodable, a, next);
        if front.Parsed? {
          var rest := ParseFrom(codec, decodable, a + b, front.consumed);
          if rest.Parsed? { assert [record] + (front.batches + rest.batches) == ([record] + front.batches)
                           + rest.batches; }
        }
      case _ =>
        AfterNothing(ParseFrom(codec, decodable, a + b, at));
    }
  }

  lemma AfterNothing(p: Parsed)
    ensures After([], p) == p
  {
    if p.Parsed? { assert [] + p.batches == p.batches; }
  }

  /**
   * However the bytes are cut into pieces, tailing gives the same batches and leaves the same bytes
   * over as parsing them all at once, and raises exactly when that does.
   */
  lemma {:induction false} SplitInvariant(codec: Codec, decodable: Record -> bool, pieces: seq<Bytes>)
    ensures Feed(codec, decodable, pieces) == Remainder(Concat(pieces), ParseFrom(codec, decodable, Concat(pieces), 0))
    decreases |pieces|
  {
    if |pieces| == 0 {
      assert ItemAt(codec, decodable, [], 0) == Wait;
    } else {
      var init, piece := pieces[..|pieces| - 1], pieces[|pieces| - 1];
      SplitInvariant(codec, decodable, init);
      FeedingMore(codec, decodable, Concat(init), piece);
    }
  }

  /** One more piece behind what was left over is one more piece behind everything. */
  lemma FeedingMore(codec: Codec, decodable: Record -> bool, data: Bytes, piece: Bytes)
    ensures FeedOne(codec, decodable, Remainder(data, ParseFrom(codec, decodable, data, 0)), piece)
         == Remainder(data + piece, ParseFrom(codec, decodable, data + piece, 0))
  {
    hide ItemAt, ParseFrom;
    ParseContinues(codec, decodable, data, piece, 0);
    var front := ParseFrom(codec, decodable, data, 0);
    if front.Parsed? {
      var consumed := front.consumed;
      assert (data + piece)[consumed..] == data[consumed..] + piece;
      ParseShifts(codec, decodable, data + piece, consumed, 0);
      var rest := ParseFrom(codec, decodable, data[consumed..] + piece, 0);
      if rest.Parsed? {
        assert (data + piece)[consumed + rest.consumed..] == (data[consumed..] + piece)[rest.consumed..];
      }
    }
  }

  // ---------------------------------------------------------------- against the server's replay

  function RecordsOf(visited: seq<LogRecord>): seq<Record> {
    seq(|visited|, i requires 0 <= i < |visited| => visited[i].record)
  }

  /** Whatever the server's replay would visit, the sidecar reads too, first and in the same order. */
  lemma {:induction false} ReadsWhatReplayVisits(codec: Codec, decodable: Record -> bool, bytes: Bytes, at: nat)
    requires at <= |bytes| && ParseFrom(codec, decodable, bytes, at).Parsed?
    ensures var (visited, end) := Walk(codec, bytes, at);
            var p := ParseFrom(codec, decodable, bytes, at);
            RecordsOf(visited) <= p.batches && end <= p.consumed
    decreases |bytes| - at
  {
    hide ItemAt, IntactAt, FrameSize;
    IntactIsGot(codec, decodable, bytes, at);
    if IntactAt(codec, bytes, at).Some? {
      var next := ItemAt(codec, decodable, bytes, at).next;
      ReadsWhatReplayVisits(codec, decodable, bytes, next);
      var (rest, end) := Walk(codec, bytes, next);
      var visited := Walk(codec, bytes, at).0;
      assert RecordsOf(visited) == [visited[0].record] + RecordsOf(rest);
    } else {
      assert RecordsOf([]) == [];
    }
  }

  /** What replay takes for a record, the parser does too, unless it raises. */
  lemma IntactIsGot(codec: Codec, decodable: Record -> bool, bytes: Bytes, at: nat)
    requires at <= |bytes|
    ensures IntactAt(codec, bytes, at).Some? ==>
              && at + FRAME_BYTES <= |bytes|
              && var item := ItemAt(codec, decodable, bytes, at);
              (item == Fail || item == Got(IntactAt(codec, bytes, at).value, at + FrameSize(bytes, at)))
  {
  }

  /** The sidecar waits at a torn tail for the rest of the record. */
  lemma WaitsAtTornTail(codec: Codec, decodable: Record -> bool, r: Record, data: Bytes, at: nat)
    requires Sane(codec) && Encodable(codec, r) && at <= |data| && data[at..] < EncodeRecord(codec, r)
    ensures ItemAt(codec, decodable, data, at) == Wait
  {
    var n := |data| - at;
    if n >= FRAME_BYTES {
      assert data[at..at + n] == data[at..];
      FrameOfEncoded(codec, r, data, at, n);
    }
  }
}
