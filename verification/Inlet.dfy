/**
 * The pub/sub inlet: messages are delivered at least once, and the process can die before any
 * durable write; every valid batch still reaches its session's log once and in order.
 */
module Inlets {
  import opened Voxels
  import opened LogHistory
  import opened StoreMachine
  import opened BatchLog
  import opened SessionStores
  import opened ChunkStores
  import opened Journals
  import StoreSafety
  import Recovery

  // ---------------------------------------------------------------- messages

  datatype Control = CreateSession(publisher: string, wellFormed: bool) | CloseSession | OtherControl

  datatype Message = BatchMessage(record: Record) | ControlMessage(control: Control) | Invalid

  /** A message is a log record when it starts with the log's magic; otherwise a JSON control message. */
  function ParseMessage(codec: Codec, controlOf: Bytes -> Option<Control>, payload: Bytes): Message {
    if |payload| >= FRAME_BYTES && ReadU32(payload, 0) == LOG_MAGIC then
      var f := FrameAt(payload, 0);
      if |payload| != Past(0, f) then Invalid
      else if codec.crc32(payload[FRAME_BYTES..], 0) != f.crc then Invalid
      else
        match codec.parse(payload[FRAME_BYTES..][..f.headerLength])
        case None => Invalid
        case Some(h) => BatchMessage(Record(h, payload[FRAME_BYTES..][f.headerLength..]))
    else
      match controlOf(payload)
      case None => Invalid
      case Some(c) => ControlMessage(c)
  }

  /** A published record arrives as it was sent; with bytes missing it is refused, not taken for control. */
  lemma PublishedRecordArrives(codec: Codec, controlOf: Bytes -> Option<Control>, r: Record, n: nat)
    requires Sane(codec) && Encodable(codec, r) && FRAME_BYTES <= n <= |EncodeRecord(codec, r)|
    ensures ParseMessage(codec, controlOf, EncodeRecord(codec, r)[..n])
         == if n == |EncodeRecord(codec, r)| then BatchMessage(r) else Invalid
  {
    var e := EncodeRecord(codec, r);
    var sent := e[..n];
    assert sent[0..0 + n] == e[..n];
    FrameOfEncoded(codec, r, sent, 0, n);
    if n == |e| {
      assert sent == e;
      BodyOfEncoded(codec, r, e, 0);
      assert e[FRAME_BYTES..] == codec.stringify(r.header) + r.payload;
      assert (codec.stringify(r.header) + r.payload)[..|codec.stringify(r.header)|] == codec.stringify(r.header);
      assert (codec.stringify(r.header) + r.payload)[|codec.stringify(r.header)|..] == r.payload;
    }
  }

  // ---------------------------------------------------------------- what a topic should leave behind

  /**
   * The consumer's fixed surroundings: how messages and payloads are read, the checks on a batch
   * (`wellFormed`), and the chunk store's settings.
   */
  datatype Rules = Rules(codec: Codec, controlOf: Bytes -> Option<Control>, wellFormed: Record -> bool,
                         pointsOf: Bytes -> seq<Point>, setting: Setting, maxChunksPerBatch: nat,
                         maxDirtyChunks: nat)

  /** A record as the chunk store takes it. */
  function BatchOf(rules: Rules, r: Record): Batch {
    Batch(r.header.sequence, r.header.poseSequence, r.header.pose, rules.pointsOf(r.payload))
  }

  function BatchesOf(rules: Rules, log: seq<Record>): seq<Batch> {
    if |log| == 0 then [] else BatchesOf(rules, log[..|log| - 1]) + [BatchOf(rules, log[|log| - 1])]
  }

  predicate StaysNarrow(rules: Rules, r: Record) {
    Narrow(rules.setting, rules.maxChunksPerBatch, rules.maxDirtyChunks, r.header.pose, rules.pointsOf(r.payload))
  }

  function MessageAt(rules: Rules, topic: seq<Bytes>, i: nat): Message
    requires i < |topic|
  {
    ParseMessage(rules.codec, rules.controlOf, topic[i])
  }

  /** A valid batch: numbered from one, well formed, and not spread over too many chunks. */
  predicate Storable(rules: Rules, m: Message) {
    m.BatchMessage? && m.record.header.sequence > 0 && rules.wellFormed(m.record) && StaysNarrow(rules, m.record)
  }

  predicate Announces(m: Message) {
    m.ControlMessage? && m.control.CreateSession? && m.control.wellFormed
  }

  /**
   * The session is announced before its first valid batch, valid batches are numbered upwards, and
   * each is within the bounds log replay accepts.
   */
  ghost predicate Proper(rules: Rules, topic: seq<Bytes>) {
    && (forall i :: 0 <= i < |topic| && Storable(rules, MessageAt(rules, topic, i)) ==>
          exists c :: 0 <= c < i && Announces(MessageAt(rules, topic, c)))
    && (forall i, j :: && 0 <= i < j < |topic|
                       && Storable(rules, MessageAt(rules, topic, i)) && Storable(rules, MessageAt(rules, topic, j)) ==>
          MessageAt(rules, topic, i).record.header.sequence < MessageAt(rules, topic, j).record.header.sequence)
    && (forall i :: 0 <= i < |topic| && Storable(rules, MessageAt(rules, topic, i)) ==>
          InBounds(rules.codec, MessageAt(rules, topic, i).record))
  }

  /** The valid batches among the first `n` messages, each once, in order. */
  function ValidBatches(rules: Rules, topic: seq<Bytes>, n: nat): seq<Record>
    requires n <= |topic|
  {
    if n == 0 then []
    else
      var m := MessageAt(rules, topic, n - 1);
      ValidBatches(rules, topic, n - 1) + if Storable(rules, m) then [m.record] else []
  }

  function LastOf(log: seq<Record>): nat {
    if |log| == 0 then 0 else log[|log| - 1].header.sequence
  }

  function PointsOf(log: seq<Record>): nat {
    if |log| == 0 then 0 else PointsOf(log[..|log| - 1]) + log[|log| - 1].header.pointCount
  }

  /** The counters of a session that has counted the first `m` records of its log. */
  ghost predicate Counts(row: SessionRow, log: seq<Record>, m: nat) {
    && m <= |log| && row.lastSequence == LastOf(log[..m]) && row.totalPoints == PointsOf(log[..m])
        && row.pointBatches == m
  }

  /** Logged sequences are those of valid batches: the next valid batch is ahead of the log and earlier ones are not. */
  lemma {:induction false} LogIsBetween(rules: Rules, topic: seq<Bytes>, n: nat, o: nat)
    requires Proper(rules, topic) && n <= |topic| && o < |topic| && Storable(rules, MessageAt(rules, topic, o))
    ensures var last, s := LastOf(ValidBatches(rules, topic, n)), MessageAt(rules, topic, o).record.header.sequence;
            if o < n then s <= last else last < s
  {
    hide StaysNarrow, ParseMessage, InBounds, MessageAt;
    if n > 0 { LogIsBetween(rules, topic, n - 1, o); }
  }

  lemma {:induction false} LogIncreases(rules: Rules, topic: seq<Bytes>, n: nat)
    requires Proper(rules, topic) && n <= |topic|
    ensures Ascends(ValidBatches(rules, topic, n))
  {
    if n > 0 {
      LogIncreases(rules, topic, n - 1);
      hide Ascends, StaysNarrow, ParseMessage, InBounds, MessageAt;
      var before, m := ValidBatches(rules, topic, n - 1), MessageAt(rules, topic, n - 1);
      if Storable(rules, m) {
        LogIsBetween(rules, topic, n - 1, n - 1);
        AscendsOn(before, m.record);
        assert ValidBatches(rules, topic, n) == before + [m.record];
      } else {
        assert ValidBatches(rules, topic, n) == before + [];
        assert before + [] == before;
      }
    }
  }

  /** Sequences start past zero and strictly increase. */
  ghost predicate Ascends(log: seq<Record>) {
    && (forall i :: 0 <= i < |log| ==> log[i].header.sequence > 0)
    && (forall i, j :: 0 <= i < j < |log| ==> log[i].header.sequence < log[j].header.sequence)
  }

  lemma AscendsOn(log: seq<Record>, r: Record)
    requires Ascends(log) && r.header.sequence > LastOf(log)
    ensures Ascends(log + [r])
  {
    forall i | 0 <= i < |log| ensures log[i].header.sequence <= LastOf(log) {}
  }

  /** Every record can be framed and is within the bounds of replay. */
  ghost predicate Replayable(codec: Codec, log: seq<Record>) {
    forall i :: 0 <= i < |log| ==> Encodable(codec, log[i]) && InBounds(codec, log[i])
  }

  /** A batch that arrived was read from JSON, so its header can be written again. */
  lemma ArrivedRoundTrips(codec: Codec, controlOf: Bytes -> Option<Control>, payload: Bytes)
    requires Sane(codec) && ParseMessage(codec, controlOf, payload).BatchMessage?
    ensures RoundTrips(codec, ParseMessage(codec, controlOf, payload).record.header)
  {
    var f := FrameAt(payload, 0);
    assert codec.parse(payload[FRAME_BYTES..][..f.headerLength]).Some?;
  }

  lemma {:induction false} LogIsReplayable(rules: Rules, topic: seq<Bytes>, n: nat)
    requires Proper(rules, topic) && n <= |topic| && Sane(rules.codec)
    ensures Replayable(rules.codec, ValidBatches(rules, topic, n))
  {
    if n > 0 {
      LogIsReplayable(rules, topic, n - 1);
      var log, before, m := ValidBatches(rules, topic, n), ValidBatches(rules, topic, n - 1),
          MessageAt(rules, topic, n - 1);
      assert Storable(rules, m) ==> InBounds(rules.codec, m.record);
      if Storable(rules, m) { ArrivedRoundTrips(rules.codec, rules.controlOf, topic[n - 1]); }
      hide Sane, ParseMessage;
      forall i | 0 <= i < |log| ensures Encodable(rules.codec, log[i]) && InBounds(rules.codec, log[i]) {
        if i < |before| { assert log[i] == before[i]; }
      }
    }
  }

  /** Replaying the bytes of such a log, torn tail or not, visits all of it. */
  lemma LogReplaysWhole(rules: Rules, topic: seq<Bytes>, n: nat, tail: Bytes)
    requires Proper(rules, topic) && n <= |topic| && Sane(rules.codec) && Torn(rules.codec, tail)
    ensures var log := ValidBatches(rules, topic, n);
            && (forall i :: 0 <= i < |log| ==> Encodable(rules.codec, log[i]))
            && Walk(rules.codec, EncodeAll(rules.codec, log) + tail, 0)
               == (Placed(rules.codec, log, 0), |EncodeAll(rules.codec, log)|)
  {
    hide Proper, Walk, Sane, ValidBatches, InBounds, Encodable;
    LogIsReplayable(rules, topic, n);
    var log := ValidBatches(rules, topic, n);
    WalkRecoversIffInBounds(rules.codec, log, tail);
  }

  // ---------------------------------------------------------------- one session

  /** What survives of a session: its log, its row, its checkpoint, and the broker's stored offset. */
  datatype Snapshot = Snapshot(log: seq<Record>, row: Option<SessionRow>, checkpoint: nat, offset: Option<nat>)

  /** What must hold of it whenever the process may die, when `high` of its topic's messages have been dealt with. */
  ghost predicate Safe(rules: Rules, topic: seq<Bytes>, s: Snapshot, high: nat) {
    && high <= |topic| && s.log == ValidBatches(rules, topic, high)
    && (s.offset.Some? ==> s.offset.value < high)
    && (s.row.None? ==> s.log == [] && s.checkpoint == 0 && forall c :: 0 <= c < high ==>
          !Announces(MessageAt(rules, topic, c)))
    && (s.row.Some? ==> exists m :: s.checkpoint <= m <= |s.log| && Counts(s.row.value, s.log, m))
  }

  /** What also holds while the process is alive, between messages. */
  ghost predicate Synced(s: Snapshot, session: Option<SessionRecord>, high: nat, cursor: nat) {
    && session.Some? == s.row.Some? && cursor <= high
    && (session.Some? ==> Counts(RowOf(session.value), s.log, |s.log|) && Counts(s.row.value, s.log, |s.log|))
  }

  /** A message that stores nothing and announces nothing new has been dealt with. */
  lemma SkipIsSafe(rules: Rules, topic: seq<Bytes>, s: Snapshot, high: nat)
    requires Safe(rules, topic, s, high) && high < |topic|
    requires !Storable(rules, MessageAt(rules, topic, high))
    requires s.row.None? ==> !Announces(MessageAt(rules, topic, high))
    ensures Safe(rules, topic, s, high + 1)
  {
    assert s.log + [] == s.log;
  }

  /** A batch the session accepts is the next valid one of its topic. */
  lemma AcceptedIsNext(rules: Rules, topic: seq<Bytes>, s: Snapshot, high: nat, session: Option<SessionRecord>, o: nat)
    requires Proper(rules, topic) && Safe(rules, topic, s, high) && Synced(s, session, high, o) && o < |topic|
             && session.Some?
    requires Storable(rules, MessageAt(rules, topic, o))
    ensures MessageAt(rules, topic, o).record.header.sequence > session.value.lastSequence <==> o == high
  {
    LogIsBetween(rules, topic, high, o);
    assert s.log[..|s.log|] == s.log;
  }

  /** A batch reaching an unknown session is not a valid one that is due. */
  lemma UnknownIsNotDue(rules: Rules, topic: seq<Bytes>, s: Snapshot, high: nat)
    requires Proper(rules, topic) && Safe(rules, topic, s, high) && s.row.None? && high < |topic|
    ensures !Storable(rules, MessageAt(rules, topic, high))
  {
  }

  lemma AppendIsSafe(rules: Rules, topic: seq<Bytes>, s: Snapshot, high: nat)
    requires Safe(rules, topic, s, high) && high < |topic| && Storable(rules, MessageAt(rules, topic, high))
    requires s.row.Some? && Counts(s.row.value, s.log, |s.log|)
    ensures Safe(rules, topic, s.(log := s.log + [MessageAt(rules, topic, high).record]), high + 1)
  {
    var log' := s.log + [MessageAt(rules, topic, high).record];
    assert log'[..|s.log|] == s.log && s.log[..|s.log|] == s.log;
    assert Counts(s.row.value, log', |s.log|);
  }

  function Until(a: nat, b: nat): nat {
    if a < b then a else b
  }

  /** The session has counted one more record, and is open; a batch of its own pose leaves the poses alone. */
  predicate Counted(before: Option<SessionRecord>, after: Option<SessionRecord>, r: Record) {
    && before.Some? && after.Some?
    && after.value.publisher == before.value.publisher && !after.value.closed
    && after.value.lastSequence == r.header.sequence && after.value.lastPoseSequence == Some(r.header.poseSequence)
    && after.value.totalPoints == before.value.totalPoints + r.header.pointCount
    && after.value.pointBatches == before.value.pointBatches + 1 && after.value.poses == before.value.poses
  }

  /** The session's own publisher announces it again. */
  predicate Owns(s: SessionRecord, c: Control) {
    c.CreateSession? && c.publisher == s.publisher
  }

  function SessionIn(sessions: map<SessionId, SessionRecord>, id: SessionId): Option<SessionRecord> {
    if id in sessions then Some(sessions[id]) else None
  }

  /** The counters after replaying a log from the checkpoint over a row that lags behind it. */
  function Recount(row: SessionRow, log: seq<Record>, start: nat, n: nat): SessionRow
    requires start <= n <= |log|
  {
    if start == n then row
    else
      var before, h := Recount(row, log, start, n - 1), log[n - 1].header;
      if h.sequence > before.lastSequence then
        before.(lastSequence := h.sequence, totalPoints := before.totalPoints + h.pointCount,
                pointBatches := before.pointBatches + 1)
      else before
  }

  /** Replay counts exactly the records the row had not counted yet. */
  lemma {:induction false} RecountCatchesUp(row: SessionRow, log: seq<Record>, start: nat, m: nat, n: nat)
    requires start <= m <= |log| && start <= n <= |log| && Counts(row, log, m)
    requires forall i :: 0 <= i < |log| ==> log[i].header.sequence > 0
    requires forall i, j :: 0 <= i < j < |log| ==> log[i].header.sequence < log[j].header.sequence
    ensures Counts(Recount(row, log, start, n), log, if n <= m then m else n)
    decreases n
  {
    if start < n {
      RecountCatchesUp(row, log, start, m, n - 1);
      assert log[..n][..n - 1] == log[..n - 1];
    }
  }

  // ---------------------------------------------------------------- following one topic

  /**
   * The consumer's side of one topic, which is one session. Topics are followed independently of
   * each other, so what other topics do shows here only as the moment the process dies.
   */
  class Follower {
    const rules: Rules
    const topic: seq<Bytes>    // as far as it will ever be filled
    const id: SessionId

    const journal: Journal     // the log as batches, and the chunks fused from it

    var stored: Snapshot       // survives the process
    ghost var high: nat        // how many messages have been dealt with

    // dies with the process
    var store: SessionStore
    var cursor: nat
    var budget: nat            // durable writes left before the process dies
    var dead: bool

    function Session(): Option<SessionRecord> reads this, store {
      SessionIn(store.sessions, id)
    }

    /** Holds at every moment, whatever has been lost. */
    ghost predicate Durable() reads this, journal, journal.store {
      Proper(rules, topic) && Safe(rules, topic, stored, high) && Journalled()
    }

    /** The journal serves this session under these rules, and its log is the stored one. */
    ghost predicate Journalled() reads this`stored, journal, journal.store {
      && journal.Safe() && journal.id == id
      && journal.store.setting == rules.setting && journal.store.maxChunksPerBatch == rules.maxChunksPerBatch
      && journal.store.maxDirtyChunks == rules.maxDirtyChunks
      && journal.Records() == BatchesOf(rules, stored.log)
      && journal.OnDisk().logs[id].checkpoint == stored.checkpoint
    }

    /** Holds while the process is alive and between messages. */
    ghost predicate Alive() reads this, store, journal, journal.store {
      Durable() && !dead && journal.Up() && Synced(stored, Session(), high, cursor)
    }

    constructor (rules: Rules, topic: seq<Bytes>, journal: Journal, maxRetainedPoses: nat)
      requires Proper(rules, topic) && journal.Up() && journal.OnDisk().logs[journal.id] == Log([], false, 0)
      requires journal.store.setting == rules.setting && journal.store.maxChunksPerBatch == rules.maxChunksPerBatch
      requires journal.store.maxDirtyChunks == rules.maxDirtyChunks
      ensures Alive() && fresh(store) && this.topic == topic && this.rules == rules && this.journal == journal
      ensures id == journal.id && stored.log == [] && cursor == 0
    {
      this.rules, this.topic, this.id, this.journal := rules, topic, journal.id, journal;
      stored := Snapshot([], None, 0, None);
      high, cursor, budget, dead := 0, 0, 0, false;
      store := new SessionStore(maxRetainedPoses);
    }

    /** About to write something durable: either there is still time, or the process is gone. */
    method Survives() returns (alive: bool)
      modifies this`budget, this`dead
      ensures alive == (old(budget) > 0) && dead == (old(dead) || !alive)
      ensures budget == if alive then old(budget) - 1 else 0
    {
      alive := budget > 0;
      if alive { budget := budget - 1; } else { dead := true; }
    }

    /** Write the session's counters to the sessions table. */
    method SyncSession(row: SessionRow) returns (alive: bool)
      modifies this`stored, this`budget, this`dead
      ensures dead == (old(dead) || !alive)
      ensures stored == if alive then old(stored).(row := Some(row)) else old(stored)
    {
      alive := Survives();
      if alive { stored := stored.(row := Some(row)); }
    }

    // -------------------------------------------------------------- one message

    /** What is stored is safe; if the process lived, memory agrees and the message at the cursor is dealt with. */
    ghost predicate Handled() reads this, store, journal, journal.store {
      && Safe(rules, topic, stored, high) && Journalled()
      && (!dead ==> journal.Up() && Synced(stored, Session(), high, cursor + 1))
    }

    method Dispatch(death: Death)
      requires Alive() && cursor < |topic| && Possible(rules.setting, id, death)
      modifies this`stored, this`high, this`budget, this`dead, store, journal`left, journal.store
      ensures Handled() && OthersKept(old(store.sessions))
    {
      match ParseMessage(rules.codec, rules.controlOf, topic[cursor])
      case BatchMessage(r) => OnBatch(r, death);
      case ControlMessage(c) => OnControl(c);
      case Invalid => Skip();
    }

    /** Other sessions are left alone. */
    ghost predicate OthersKept(before: map<SessionId, SessionRecord>) reads this, store {
      forall k :: k != id ==> SessionIn(store.sessions, k) == SessionIn(before, k)
    }

    /** A batch: dropped when redelivered or refused, otherwise logged and fused, then counted. */
    method OnBatch(r: Record, death: Death)
      requires Alive() && cursor < |topic| && MessageAt(rules, topic, cursor) == BatchMessage(r)
      requires Possible(rules.setting, id, death)
      modifies this`stored, this`high, this`budget, this`dead, store, journal`left, journal.store
      ensures Handled() && OthersKept(old(store.sessions))
      ensures stored.log == old(stored).log || stored.log == old(stored).log + [r]
      ensures !dead ==>
                (stored.log == old(stored).log + [r] <==>
                 && old(Session()).Some? && r.header.sequence > old(Session()).value.lastSequence
                 && rules.wellFormed(r) && StaysNarrow(rules, r))
      ensures !dead && stored.log == old(stored).log ==> Session() == old(Session()) && stored == old(stored)
      ensures !dead && stored.log != old(stored).log ==> Counted(old(Session()), Session(), r)
                                                         && stored.row == Some(RowOf(Session().value))
    {
      hide Proper, Counts, Safe, Follower.Journalled, Possible, Journal.Up, StaysNarrow;
      if cursor == high && stored.row.None? { UnknownIsNotDue(rules, topic, stored, high); }
      if Storable(rules, MessageAt(rules, topic, cursor)) && stored.row.Some? {
        AcceptedIsNext(rules, topic, stored, high, Session(), cursor);
      }
      var outcome := store.PrepareExternalBatch(id, r, rules.wellFormed(r));
      if outcome == Accepted && StaysNarrow(rules, r) {
        StoreDurably(r, death);
      } else {
        Skip();
      }
    }

    /** Nothing to do for the message at the cursor. */
    ghost method Skip()
      requires Alive() && cursor < |topic|
      requires cursor == high ==> !Storable(rules, MessageAt(rules, topic, cursor))
      requires cursor == high && stored.row.None? ==> !Announces(MessageAt(rules, topic, cursor))
      modifies this`high
      ensures Handled() && high >= old(high)
    {
      hide Proper, Counts;
      if cursor == high {
        SkipIsSafe(rules, topic, stored, high);
        high := high + 1;
      }
    }

    /**
     * Append to the log and fuse, then write the counters, then move on in memory. The process may
     * die before it starts, after any of the steps the store takes, or before the counters are written.
     */
    method StoreDurably(r: Record, death: Death)
      requires Alive() && cursor == high < |topic| && Possible(rules.setting, id, death)
      requires MessageAt(rules, topic, cursor) == BatchMessage(r) && Storable(rules, BatchMessage(r))
      requires Session().Some? && r.header.sequence > Session().value.lastSequence
      modifies this`stored, this`high, this`budget, this`dead, store, journal`left, journal.store
      ensures Handled() && OthersKept(old(store.sessions))
      ensures stored.log == old(stored).log || stored.log == old(stored).log + [r]
      ensures !dead ==> stored.log == old(stored).log + [r] && Counted(old(Session()), Session(), r)
                        && stored.row == Some(RowOf(Session().value))
    {
      hide Proper, Safe, Counts, Possible, MessageAt, Journal.Up, Journal.Safe, BatchesOf, StaysNarrow;
      ghost var s := stored;
      AppendIsSafe(rules, topic, s, high);
      var next := RowOf(AfterExternal(store.sessions[id], r.header));
      CountsIgnoresRest(RowOf(store.sessions[id]), next, r.header, s.log, s.log + [r]);
      SyncedIsSafe(rules, topic, s.(log := s.log + [r]), high + 1, next);
      AheadOfJournal(rules, topic, s, high, Session(), r);
      var logged := LogRecord(r, death);
      if logged { high := high + 1; }
      if dead { return; }
      var alive := SyncSession(next);
      if !alive { return; }
      var committed := store.CommitExternalBatch(id, r.header);
    }

    /** Hand a record to the store, which logs and fuses it, or die in the middle of it. */
    method LogRecord(r: Record, death: Death) returns (logged: bool)
      requires Journalled() && journal.Up() && !dead && Possible(rules.setting, id, death) && StaysNarrow(rules, r)
      requires var records := BatchesOf(rules, stored.log); BatchOf(rules, r).sequence > Position(records, |records|)
      modifies this`stored, this`budget, this`dead, journal`left, journal.store
      ensures Journalled() && (!dead ==> journal.Up() && logged)
      ensures stored == if logged then old(stored).(log := old(stored).log + [r]) else old(stored)
    {
      hide ChunkStore.Recoverable, ChunkStore.Current, LeftBehind, StoreSafety.Inv, AllIndexed, CaughtUp,
          ChunkStore.Valid, Position, BatchesOf;
      BatchesGrow(rules, stored.log, r);
      var b := BatchOf(rules, r);
      logged := false;
      var alive := Survives();
      if alive {
        logged := journal.Append(b);
      } else if death.Some? {
        journal.CanDie(b, death.value);
        logged := journal.DieStoring(b, death.value(journal.store.Current(), b));
      }
      if logged { stored := stored.(log := stored.log + [r]); }
    }

    /**
     * A control message. A create opens a session not known yet, and reopens one for its own
     * publisher; a close closes one that is known; nothing else has an effect. What changed is in the
     * sessions table as well, unless the process died first; the log is left alone.
     */
    method OnControl(c: Control)
      requires Alive() && cursor < |topic| && MessageAt(rules, topic, cursor) == ControlMessage(c)
      modifies this`stored, this`high, this`budget, this`dead, store
      ensures Handled() && OthersKept(old(store.sessions)) && high >= old(high)
      ensures stored == old(stored).(row := stored.row)
      ensures !dead && old(Session()).None? ==>
                Session() == if c.CreateSession? && c.wellFormed
                             then Some(SessionRecord(c.publisher, false, 0, None, 0, 0, [])) else None
      ensures !dead && old(Session()).Some? ==>
                && Session().Some?
                && Session().value == old(Session()).value.(closed := Session().value.closed)
                && Session().value.closed
                   == if c.CloseSession? then true
                      else old(Session()).value.closed && !Owns(old(Session()).value, c)
      ensures !dead && Session() != old(Session()) ==> stored.row == Some(RowOf(Session().value))
      ensures stored.row == old(stored).row || (!dead && Session().Some? && stored.row == Some(RowOf(Session().value)))
    {
      hide Proper, Counts, Safe, Follower.Journalled, Journal.Up;
      ghost var before := Session();
      match c
      case CreateSession(publisher, wellFormed) =>
        var outcome := store.EnsureSession(id, publisher, wellFormed);
        if outcome == Accepted { SaveSession(before); } else { Skip(); }
      case CloseSession =>
        if id !in store.sessions {
          Skip();
        } else {
          var outcome := store.MarkClosed(id);
          SaveSession(before);
        }
      case OtherControl => Skip();
    }

    /** Write the session's row after a control message changed it in memory. */
    method SaveSession(ghost before: Option<SessionRecord>)
      requires Durable() && !dead && journal.Up() && Session().Some? && cursor < |topic| && cursor <= high
      requires !Storable(rules, MessageAt(rules, topic, cursor))
      requires Synced(stored, before, high, cursor) && Resumes(before, Session().value)
      modifies this`stored, this`high, this`budget, this`dead
      ensures Handled() && high >= old(high)
      ensures stored == if dead then old(stored) else old(stored).(row := Some(RowOf(Session().value)))
    {
      hide Proper, Counts, Safe, Storable, Synced, Journal.Up, Journal.Safe, BatchesOf;
      ghost var s, session := stored, Session().value;
      ResumedCounts(rules, topic, s, high, before, session, cursor);
      ResumedIsSafe(rules, topic, s, high, RowOf(session), cursor);
      var alive := SyncSession(RowOf(store.sessions[id]));
      if alive {
        high := if cursor == high then cursor + 1 else high;
        SyncedAhead(stored, session, high, cursor + 1);
      }
    }

    // -------------------------------------------------------------- pages

    /** Handle one message and move the cursor past it. */
    method ConsumeOne(death: Death)
      requires Alive() && cursor < |topic| && Possible(rules.setting, id, death)
      modifies this`stored, this`high, this`budget, this`dead, this`cursor, store, journal`left, journal.store
      ensures Durable() && (!dead ==> Alive() && cursor == old(cursor) + 1)
      ensures OthersKept(old(store.sessions))
    {
      hide Proper, Safe, Synced, Follower.Journalled, Journal.Up;
      Dispatch(death);
      if dead { return; }
      cursor := cursor + 1;
    }

    /** Handle the messages up to a point. */
    method ConsumeUntil(end: nat, death: Death)
      requires Alive() && cursor <= end <= |topic| && Possible(rules.setting, id, death)
      modifies this`stored, this`high, this`budget, this`dead, this`cursor, store, journal`left, journal.store
      ensures Durable() && (!dead ==> Alive() && cursor == end) && OthersKept(old(store.sessions))
    {
      hide Follower.Alive, Follower.Durable, Possible;
      while cursor < end
        invariant Alive() && cursor <= end && OthersKept(old(store.sessions))
        decreases end - cursor
      {
        ConsumeOne(death);
        if dead { return; }
      }
      StillDurable();
    }

    lemma StillDurable()
      requires Alive()
      ensures Durable() && cursor <= high <= |topic|
    {
    }

    /** Consume the next page and store the offset of its last message with the broker. */
    method Tick(take: nat, death: Death)
      requires Alive() && Possible(rules.setting, id, death)
      modifies this`stored, this`high, this`budget, this`dead, this`cursor, store, journal`left, journal.store
      ensures Durable() && (!dead ==> Alive()) && OthersKept(old(store.sessions))
      ensures !dead ==> cursor == Until(old(cursor) + take, |topic|)
      ensures !dead && cursor > old(cursor) ==> stored.offset == Some(cursor - 1)
    {
      hide Proper, Safe, Journal.Up, Follower.Journalled, Possible;
      StillDurable();
      var start, end := cursor, Until(cursor + take, |topic|);
      if end == start { return; }
      ConsumeUntil(end, death);
      if !dead { StoreOffset(); }
    }

    /** Tell the broker how far messages have been handled. */
    method StoreOffset()
      requires Alive() && cursor > 0
      modifies this`stored, this`budget, this`dead
      ensures Durable() && (!dead ==> Alive() && stored.offset == Some(cursor - 1))
    {
      hide Proper, Safe, Synced, Journal.Up, Journal.Safe, BatchesOf;
      OffsetIsSafe(rules, topic, stored, high, Session(), cursor);
      var alive := Survives();
      if alive { stored := stored.(offset := Some(cursor - 1)); }
    }

    /** The store's own bookkeeping, between messages: write dirty chunks; with none left, move the replay start. */
    method Checkpoint(maxChunks: Option<nat>)
      requires Alive()
      modifies this`stored, this`budget, this`dead, journal.store
      ensures Durable() && (!dead ==> Alive()) && stored == old(stored).(checkpoint := stored.checkpoint)
    {
      hide Proper, Counts, ChunkStore.Recoverable, StoreSafety.Inv, AllIndexed, CaughtUp, ChunkStore.Valid;
      var alive := Survives();
      if !alive { return; }
      BatchesCount(rules, stored.log);
      journal.Checkpoint(maxChunks);
      MovedIsSafe(rules, topic, stored, high, Session(), cursor, journal.OnDisk().logs[id].checkpoint);
      hide Safe, Synced;
      stored := stored.(checkpoint := journal.OnDisk().logs[id].checkpoint);
    }

    // -------------------------------------------------------------- restart

    /** Restart on what survived: bring the counters up to the log, checkpoint, and resume from the stored offset. */
    method Restart(writes: nat, maxRetainedPoses: nat)
      requires Durable()
      modifies this`stored, this`budget, this`dead, this`store, this`cursor, journal`left, journal`store
      ensures Durable() && fresh(store) && stored.log == old(stored).log && stored.offset == old(stored).offset
      ensures journal.store == old(journal.store) || fresh(journal.store)
      ensures !dead ==> Alive() && cursor == if stored.offset.Some? then stored.offset.value + 1 else 0
    {
      hide ChunkStore.Recoverable, StoreSafety.Inv, AllIndexed, CaughtUp, ChunkStore.Valid, Proper, Safe, Synced,
          Counts, BatchesOf, Restored;
      budget, dead := writes, false;
      store := new SessionStore(maxRetainedPoses);
      if stored.row.Some? {
        RecoverSession();
        if dead { return; }
        store.RestoreSessions(map[id := stored.row.value]);
      } else {
        UnknownIsEmpty(rules, topic, stored, high);
        journal.Reopen();
      }
      cursor := if stored.offset.Some? then stored.offset.value + 1 else 0;
      RestoredIsSynced(rules, topic, stored, high, Session(), cursor);
    }

    /** Replay the log over the row, save the counters if they moved, and checkpoint. */
    method RecoverSession()
      requires Durable() && !dead && stored.row.Some?
      modifies this`stored, this`budget, this`dead, journal`left, journal`store
      ensures Durable() && stored.log == old(stored).log && stored.offset == old(stored).offset
      ensures journal.store == old(journal.store) || fresh(journal.store)
      ensures !dead ==> Recovered(stored) && journal.Up()
    {
      hide Proper, Counts, ChunkStore.Recoverable, StoreSafety.Inv, AllIndexed, CaughtUp, ChunkStore.Valid, BatchesOf;
      var s := stored;
      ghost var m := CountedSoFar(rules, topic, s, high);
      LogIncreases(rules, topic, high);
      hide Safe, ValidBatches;
      var row := ReplayCounters(s);
      RecountCatchesUp(s.row.value, s.log, s.checkpoint, m, |s.log|);
      SyncedIsSafe(rules, topic, s, high, row);
      CheckpointIsSafe(rules, topic, s.(row := Some(row)), high, row, |s.log|);
      if row.lastSequence != s.row.value.lastSequence {
        var alive := SyncSession(row);
        if !alive { return; }
      } else {
        SameCounters(s.row.value, row, s.log, m);
        CheckpointIsSafe(rules, topic, s, high, s.row.value, |s.log|);
      }
      var alive := Survives();
      if !alive { return; }
      BatchesCount(rules, s.log);
      journal.Reopen();
      stored := stored.(checkpoint := |s.log|);
    }
  }

  lemma BatchesGrow(rules: Rules, log: seq<Record>, r: Record)
    ensures BatchesOf(rules, log + [r]) == BatchesOf(rules, log) + [BatchOf(rules, r)]
  {
    assert (log + [r])[..|log|] == log;
  }

  lemma {:induction false} BatchesCount(rules: Rules, log: seq<Record>)
    ensures |BatchesOf(rules, log)| == |log|
    ensures |log| > 0 ==> BatchesOf(rules, log)[|log| - 1] == BatchOf(rules, log[|log| - 1])
    decreases |log|
  {
    if |log| > 0 { BatchesCount(rules, log[..|log| - 1]); }
  }

  /** A batch ahead of the session's counters is ahead of the journal. */
  lemma AheadOfJournal(rules: Rules, topic: seq<Bytes>, s: Snapshot, high: nat, session: Option<SessionRecord>,
                       r: Record)
    requires Safe(rules, topic, s, high) && Synced(s, session, high, high) && session.Some?
    requires r.header.sequence > session.value.lastSequence
    ensures var records := BatchesOf(rules, s.log);
            BatchOf(rules, r).sequence > Position(records, |records|)
  {
    BatchesCount(rules, s.log);
    assert s.log[..|s.log|] == s.log;
  }

  /** Count the replayed records the row had not counted yet. */
  method ReplayCounters(s: Snapshot) returns (row: SessionRow)
    requires s.row.Some? && s.checkpoint <= |s.log|
    ensures row == Recount(s.row.value, s.log, s.checkpoint, |s.log|)
  {
    row := s.row.value;
    for i := s.checkpoint to |s.log|
      invariant row == Recount(s.row.value, s.log, s.checkpoint, i)
    {
      var h := s.log[i].header;
      if h.sequence > row.lastSequence {
        row := row.(lastSequence := h.sequence, totalPoints := row.totalPoints + h.pointCount,
                    pointBatches := row.pointBatches + 1);
      }
    }
  }

  // ---------------------------------------------------------------- every run

  /** Reading a page, a checkpoint, or starting again; each with the writes it may do before dying. */
  datatype Event =
    | Page(take: nat, writes: nat, death: Death)
    | Checkpointed(maxChunks: Option<nat>, writes: nat)
    | Started(writes: nat)

  ghost predicate CanHappen(g: Setting, session: SessionId, e: Event) {
    e.Page? ==> Possible(g, session, e.death)
  }

  method HandleEvent(f: Follower, e: Event)
    requires f.Durable() && (!f.dead ==> f.Alive()) && CanHappen(f.rules.setting, f.id, e)
    modifies f, f.store, f.journal, f.journal.store
    ensures f.Durable() && (!f.dead ==> f.Alive())
    ensures f.store == old(f.store) || fresh(f.store)
    ensures f.journal.store == old(f.journal.store) || fresh(f.journal.store)
  {
    hide Proper, Safe, Synced, Possible, Journal.Up, Follower.Journalled;
    if !e.Started? && f.dead { return; }
    f.budget := e.writes;
    match e
    case Page(take, _, death) => f.Tick(take, death);
    case Checkpointed(maxChunks, _) => f.Checkpoint(maxChunks);
    case Started(writes) => f.Restart(writes, 64);
  }

  /**
   * Whatever pages are read, whenever the process dies and however often it starts again, the log
   * holds exactly the valid batches of the messages dealt with, each once and in order. Whenever the
   * process is up, the session's last sequence, points and batches are those of the log, and every
   * chunk holds each of those batches exactly once.
   */
  method FollowTopic(f: Follower, events: seq<Event>)
    requires f.Durable() && (!f.dead ==> f.Alive())
    requires forall e :: e in events ==> CanHappen(f.rules.setting, f.id, e)
    modifies f, f.store, f.journal, f.journal.store
    ensures f.Durable() && (!f.dead ==> f.Alive())
    ensures f.high <= |f.topic| && f.stored.log == ValidBatches(f.rules, f.topic, f.high)
    ensures !f.dead && f.Session().Some? ==>
              && f.Session().value.lastSequence == LastOf(f.stored.log)
              && f.Session().value.totalPoints == PointsOf(f.stored.log)
              && f.Session().value.pointBatches == |f.stored.log|
    ensures !f.dead && f.cursor == |f.topic| ==> f.stored.log == ValidBatches(f.rules, f.topic, |f.topic|)
    ensures !f.dead ==> Recovery.Restored(f.rules.setting, f.journal.store.Current(), f.id,
                                          BatchesOf(f.rules, ValidBatches(f.rules, f.topic, f.high)))
  {
    hide Proper, Safe, Synced, Journal.Up, Follower.Journalled;
    for i := 0 to |events|
      invariant f.Durable() && (!f.dead ==> f.Alive())
      invariant f.store == old(f.store) || fresh(f.store)
      invariant f.journal.store == old(f.journal.store) || fresh(f.journal.store)
    {
      hide CanHappen;
      HandleEvent(f, events[i]);
    }
    ExactlyOnce(f);
  }

  lemma ExactlyOnce(f: Follower)
    requires f.Durable() && (!f.dead ==> f.Alive())
    ensures f.high <= |f.topic| && f.stored.log == ValidBatches(f.rules, f.topic, f.high)
    ensures !f.dead && f.Session().Some? ==>
              && f.Session().value.lastSequence == LastOf(f.stored.log)
              && f.Session().value.totalPoints == PointsOf(f.stored.log)
              && f.Session().value.pointBatches == |f.stored.log|
    ensures !f.dead ==> f.cursor <= f.high
    ensures !f.dead ==> Recovery.Restored(f.rules.setting, f.journal.store.Current(), f.id,
                                          BatchesOf(f.rules, ValidBatches(f.rules, f.topic, f.high)))
  {
    hide Proper, ChunkStore.Recoverable, StoreSafety.Inv, AllIndexed, CaughtUp, ChunkStore.Valid, Recovery.Restored;
    var log := f.stored.log;
    assert log[..|log|] == log;
    if !f.dead { f.journal.HoldsRecords(); }
  }

  ghost predicate Recovered(s: Snapshot) {
    s.row.Some? && Counts(s.row.value, s.log, |s.log|)
  }

  /** The counters have caught up, and every message before the stored offset was dealt with. */
  lemma RestoredIsSynced(rules: Rules, topic: seq<Bytes>, s: Snapshot, high: nat, session: Option<SessionRecord>,
                         cursor: nat)
    requires Safe(rules, topic, s, high) && (s.row.Some? ==> Recovered(s))
    requires session == if s.row.Some? then Some(Restored(s.row.value)) else None
    requires cursor == if s.offset.Some? then s.offset.value + 1 else 0
    ensures Synced(s, session, high, cursor)
  {
  }

  lemma UnknownIsEmpty(rules: Rules, topic: seq<Bytes>, s: Snapshot, high: nat)
    requires Safe(rules, topic, s, high) && s.row.None?
    ensures BatchesOf(rules, s.log) == [] && s.checkpoint == 0
  {
  }

  lemma CountedSoFar(rules: Rules, topic: seq<Bytes>, s: Snapshot, high: nat) returns (m: nat)
    requires Safe(rules, topic, s, high) && s.row.Some?
    ensures s.checkpoint <= m <= |s.log| && Counts(s.row.value, s.log, m)
    ensures s.log == ValidBatches(rules, topic, high)
  {
    m :| s.checkpoint <= m <= |s.log| && Counts(s.row.value, s.log, m);
  }

  lemma CheckpointIsSafe(rules: Rules, topic: seq<Bytes>, s: Snapshot, high: nat, row: SessionRow, upTo: nat)
    requires Safe(rules, topic, s, high) && s.row == Some(row) && Counts(row, s.log, |s.log|) && upTo <= |s.log|
    ensures Safe(rules, topic, s.(checkpoint := upTo), high)
  {
  }

  /** Between messages the replay start may move anywhere in the log. */
  lemma MovedIsSafe(rules: Rules, topic: seq<Bytes>, s: Snapshot, high: nat, session: Option<SessionRecord>,
                    cursor: nat, upTo: nat)
    requires Safe(rules, topic, s, high) && Synced(s, session, high, cursor) && upTo <= |s.log|
    ensures Safe(rules, topic, s.(checkpoint := upTo), high) && Synced(s.(checkpoint := upTo), session, high, cursor)
  {
    if s.row.Some? { CheckpointIsSafe(rules, topic, s, high, s.row.value, upTo); }
  }

  /** Committing the offset of a message that was dealt with. */
  lemma OffsetIsSafe(rules: Rules, topic: seq<Bytes>, s: Snapshot, high: nat, session: Option<SessionRecord>,
                     cursor: nat)
    requires Safe(rules, topic, s, high) && Synced(s, session, high, cursor) && cursor > 0
    ensures Safe(rules, topic, s.(offset := Some(cursor - 1)), high)
            && Synced(s.(offset := Some(cursor - 1)), session, high, cursor)
  {
  }

  /** With no new sequence there was nothing left to count. */
  lemma SameCounters(before: SessionRow, row: SessionRow, log: seq<Record>, m: nat)
    requires Counts(before, log, m) && Counts(row, log, |log|) && row.lastSequence == before.lastSequence
    requires forall i :: 0 <= i < |log| ==> log[i].header.sequence > 0
    requires forall i, j :: 0 <= i < j < |log| ==> log[i].header.sequence < log[j].header.sequence
    ensures Counts(before, log, |log|)
  {
    assert log[..|log|] == log;
  }

  /** A session a control message has reopened or closed keeps its counters; a new one starts at zero. */
  ghost predicate Resumes(before: Option<SessionRecord>, s: SessionRecord) {
    if before.None? then s.lastSequence == 0 && s.totalPoints == 0 && s.pointBatches == 0
    else
      && s.lastSequence == before.value.lastSequence
      && s.totalPoints == before.value.totalPoints && s.pointBatches == before.value.pointBatches
  }

  lemma ResumedCounts(rules: Rules, topic: seq<Bytes>, s: Snapshot, high: nat, before: Option<SessionRecord>,
                      session: SessionRecord, o: nat)
    requires Safe(rules, topic, s, high) && Synced(s, before, high, o) && Resumes(before, session)
    ensures Counts(RowOf(session), s.log, |s.log|)
  {
  }

  lemma ResumedIsSafe(rules: Rules, topic: seq<Bytes>, s: Snapshot, high: nat, row: SessionRow, o: nat)
    requires Safe(rules, topic, s, high) && Counts(row, s.log, |s.log|) && o <= high
    requires o < |topic| && !Storable(rules, MessageAt(rules, topic, o))
    ensures Safe(rules, topic, s.(row := Some(row)), if o == high then o + 1 else high)
  {
    SyncedIsSafe(rules, topic, s, high, row);
    if o == high { SkipIsSafe(rules, topic, s.(row := Some(row)), high); }
  }

  lemma SyncedAhead(s: Snapshot, session: SessionRecord, high: nat, cursor: nat)
    requires s.row == Some(RowOf(session)) && Counts(RowOf(session), s.log, |s.log|) && cursor <= high
    ensures Synced(s, Some(session), high, cursor)
  {
  }

  lemma CountsIgnoresRest(before: SessionRow, next: SessionRow, h: Header, log: seq<Record>, log': seq<Record>)
    requires Counts(before, log, |log|) && |log'| == |log| + 1 && log'[..|log|] == log && log'[|log|].header == h
    requires next.lastSequence == h.sequence && next.totalPoints == before.totalPoints + h.pointCount
    requires next.pointBatches == before.pointBatches + 1
    ensures Counts(next, log', |log'|)
  {
    assert log'[..|log'|] == log' && log[..|log|] == log;
  }

  /** Writing a row that has counted the whole log. */
  lemma SyncedIsSafe(rules: Rules, topic: seq<Bytes>, s: Snapshot, high: nat, row: SessionRow)
    requires Safe(rules, topic, s, high) && Counts(row, s.log, |s.log|)
    ensures Safe(rules, topic, s.(row := Some(row)), high)
  {
  }
}
