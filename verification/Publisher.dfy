/**
 * A publisher's own session: messages carry consecutive sequence numbers, poses are sent apart from
 * the batches that use them, and the process can die before any durable write.
 */
module Publishers {
  import opened Voxels
  import opened Poses
  import opened LogHistory
  import opened StoreMachine
  import opened StoreSafety
  import opened Recovery
  import opened ChunkStores
  import opened Journals
  import BatchLog
  import Sessions = SessionStores

  // ---------------------------------------------------------------- what was accepted

  /** What the server accepted for good: numbered messages, and the resumes and restarts between them. */
  datatype Accepted =
    | Posed(sequence: nat, pose: Pose)
    | Logged(batch: Batch)
    | Closed(sequence: nat)
    | Resumed
    | Restarted

  /** Resumes and restarts carry no number, and drop the poses. */
  predicate Forgets(a: Accepted) {
    a.Resumed? || a.Restarted?
  }

  function Number(a: Accepted): nat
    requires !Forgets(a)
  {
    match a case Posed(n, _) => n case Logged(b) => b.sequence case Closed(n) => n
  }

  /** How many numbered messages were accepted. */
  function Numbered(trace: seq<Accepted>): nat {
    if |trace| == 0 then 0 else Numbered(trace[..|trace| - 1]) + if Forgets(trace[|trace| - 1]) then 0 else 1
  }

  function Batches(trace: seq<Accepted>): seq<Batch> {
    if |trace| == 0 then []
    else Batches(trace[..|trace| - 1]) + if trace[|trace| - 1].Logged? then [trace[|trace| - 1].batch] else []
  }

  /** The poses accepted since they were last dropped, in order. */
  function Recent(trace: seq<Accepted>): seq<(nat, Pose)> {
    if |trace| == 0 then []
    else
      match trace[|trace| - 1]
      case Posed(n, pose) => Recent(trace[..|trace| - 1]) + [(n, pose)]
      case Resumed => []
      case Restarted => []
      case _ => Recent(trace[..|trace| - 1])
  }

  /** The k-th accepted message carries the number k. */
  ghost predicate Gapless(trace: seq<Accepted>) {
    forall i :: 0 <= i < |trace| && !Forgets(trace[i]) ==> Number(trace[i]) == Numbered(trace[..i]) + 1
  }

  /** A closed session that has not been resumed since. */
  function Shut(trace: seq<Accepted>): bool {
    |trace| > 0 &&
    match trace[|trace| - 1]
    case Closed(_) => true
    case Resumed => false
    case _ => Shut(trace[..|trace| - 1])
  }

  /** Nothing numbered is accepted while the session is shut, however often the process starts again. */
  ghost predicate Obeyed(trace: seq<Accepted>) {
    forall i :: 0 <= i < |trace| && !Forgets(trace[i]) ==> !Shut(trace[..i])
  }

  /** Every accepted batch has the pose found under its pose sequence among the latest ones retained. */
  ghost predicate Placed(trace: seq<Accepted>, max: nat) {
    forall i :: 0 <= i < |trace| && trace[i].Logged? ==> Finds(trace[..i], max, trace[i].batch)
  }

  ghost predicate Finds(trace: seq<Accepted>, max: nat, b: Batch) {
    Sessions.PoseFor(Sessions.Latest(Recent(trace), max), b.poseSequence) == Some(b.pose)
  }

  lemma TraceGrows(trace: seq<Accepted>, a: Accepted, max: nat)
    requires Gapless(trace) && Placed(trace, max) && Obeyed(trace)
    requires !Forgets(a) ==> Number(a) == Numbered(trace) + 1 && !Shut(trace)
    requires a.Logged? ==> Finds(trace, max, a.batch)
    ensures var t := trace + [a];
            && Gapless(t) && Placed(t, max) && Obeyed(t)
            && Numbered(t) == Numbered(trace) + (if Forgets(a) then 0 else 1)
            && Batches(t) == Batches(trace) + (if a.Logged? then [a.batch] else [])
            && Recent(t) == Recalled(Recent(trace), a)
            && Shut(t) == (a.Closed? || (!a.Resumed? && Shut(trace)))
  {
    var t := trace + [a];
    assert t[..|trace|] == trace;
    forall i | 0 <= i < |trace| ensures t[..i] == trace[..i] && t[i] == trace[i] {}
  }

  function Recalled(recent: seq<(nat, Pose)>, a: Accepted): seq<(nat, Pose)> {
    if a.Posed? then recent + [(a.sequence, a.pose)] else if Forgets(a) then [] else recent
  }

  /** Between a close and the next resume there are at most restarts. */
  lemma {:induction false} NothingWhileShut(trace: seq<Accepted>, i: nat, j: nat)
    requires Obeyed(trace) && i < j < |trace| && trace[i].Closed? && !Forgets(trace[j])
    ensures exists r :: i < r < j && trace[r].Resumed?
  {
    ShutUntilResumed(trace[..j], i);
    assert !Shut(trace[..j]);
    var r :| i < r < j && trace[..j][r].Resumed?;
    assert trace[r].Resumed?;
  }

  lemma {:induction false} ShutUntilResumed(trace: seq<Accepted>, i: nat)
    requires i < |trace| && trace[i].Closed?
    ensures Shut(trace) || exists r :: i < r < |trace| && trace[r].Resumed?
    decreases |trace|
  {
    if i < |trace| - 1 {
      var init := trace[..|trace| - 1];
      ShutUntilResumed(init, i);
      if !Shut(init) {
        var r :| i < r < |init| && init[r].Resumed?;
        assert trace[r].Resumed?;
      } else if trace[|trace| - 1].Resumed? {
        assert i < |trace| - 1 < |trace|;
      }
    }
  }

  /** So the logged sequences increase and none is ahead of the count. */
  lemma {:induction false} LoggedBelowCount(trace: seq<Accepted>)
    requires Gapless(trace)
    ensures Increasing(Batches(trace)) && Position(Batches(trace), |Batches(trace)|) <= Numbered(trace)
    decreases |trace|
  {
    if |trace| > 0 {
      var init, a := trace[..|trace| - 1], trace[|trace| - 1];
      forall i | 0 <= i < |init| ensures init[..i] == trace[..i] && init[i] == trace[i] {}
      LoggedBelowCount(init);
      if a.Logged? {
        assert Number(trace[|trace| - 1]) == Numbered(trace[..|trace| - 1]) + 1;
        AppendKeepsIncreasing(Batches(init), a.batch);
      }
    }
  }

  // ---------------------------------------------------------------- which pose a batch got

  function PosesIn(trace: seq<Accepted>): nat {
    if |trace| == 0 then 0 else PosesIn(trace[..|trace| - 1]) + if trace[|trace| - 1].Posed? then 1 else 0
  }

  /** The pose was accepted as message `j`, not dropped since, and followed by `after` others. */
  ghost predicate StandsAt(trace: seq<Accepted>, j: nat, n: nat, pose: Pose, after: nat) {
    && j < |trace| && trace[j] == Posed(n, pose)
    && (forall i :: j < i < |trace| ==> !Forgets(trace[i]))
    && PosesIn(trace[j + 1..]) == after
  }

  lemma {:induction false} RecentStands(trace: seq<Accepted>, r: nat) returns (j: nat)
    requires r < |Recent(trace)|
    ensures StandsAt(trace, j, Recent(trace)[r].0, Recent(trace)[r].1, |Recent(trace)| - 1 - r)
    decreases |trace|
  {
    var init, a := trace[..|trace| - 1], trace[|trace| - 1];
    if a.Posed? && r == |Recent(trace)| - 1 {
      j := |trace| - 1;
      assert trace[j + 1..] == [];
    } else {
      j := RecentStands(init, r);
      assert trace[j + 1..][..|trace| - 1 - (j + 1)] == init[j + 1..];
      assert trace[j + 1..][|trace| - 1 - (j + 1)] == a;
    }
  }

  lemma {:induction false} FoundAt(poses: seq<(nat, Pose)>, n: nat) returns (r: nat)
    requires Sessions.PoseFor(poses, n).Some?
    ensures r < |poses| && poses[r] == (n, Sessions.PoseFor(poses, n).value)
    decreases |poses|
  {
    if poses[|poses| - 1].0 == n {
      r := |poses| - 1;
    } else {
      r := FoundAt(poses[..|poses| - 1], n);
    }
  }

  lemma {:induction false} StandsInRecent(trace: seq<Accepted>, j: nat, n: nat, pose: Pose, after: nat)
    requires StandsAt(trace, j, n, pose, after)
    ensures after < |Recent(trace)| && Recent(trace)[|Recent(trace)| - 1 - after] == (n, pose)
    decreases |trace|
  {
    var init, a := trace[..|trace| - 1], trace[|trace| - 1];
    if j == |trace| - 1 {
      assert trace[j + 1..] == [];
    } else {
      assert trace[j + 1..][..|trace| - 1 - (j + 1)] == init[j + 1..];
      assert trace[j + 1..][|trace| - 1 - (j + 1)] == a;
      assert !Forgets(trace[|trace| - 1]);
      StandsInRecent(init, j, n, pose, PosesIn(init[j + 1..]));
    }
  }

  lemma {:induction false} RecentIsOrdered(trace: seq<Accepted>)
    requires Gapless(trace)
    ensures Sessions.Ordered(Recent(trace), Numbered(trace))
    decreases |trace|
  {
    if |trace| > 0 {
      var init := trace[..|trace| - 1];
      forall i | 0 <= i < |init| ensures init[..i] == trace[..i] && init[i] == trace[i] {}
      RecentIsOrdered(init);
      assert !Forgets(trace[|trace| - 1]) ==> Number(trace[|trace| - 1]) == Numbered(trace[..|trace| - 1]) + 1;
    }
  }

  lemma SentIfRetained(trace: seq<Accepted>, max: nat, n: nat) returns (j: nat, after: nat)
    requires Sessions.PoseFor(Sessions.Latest(Recent(trace), max), n).Some?
    ensures after < max && StandsAt(trace, j, n, Sessions.PoseFor(Sessions.Latest(Recent(trace), max), n).value, after)
  {
    hide StandsAt;
    var recent := Recent(trace);
    var latest := Sessions.Latest(recent, max);
    var r := FoundAt(latest, n);
    var at := |recent| - |latest| + r;
    assert recent[at] == latest[r];
    j := RecentStands(trace, at);
    after := |recent| - 1 - at;
  }

  lemma RetainedIfSent(trace: seq<Accepted>, max: nat, j: nat, n: nat, pose: Pose, after: nat)
    requires Gapless(trace) && after < max && StandsAt(trace, j, n, pose, after)
    ensures Sessions.PoseFor(Sessions.Latest(Recent(trace), max), n) == Some(pose)
  {
    StandsInRecent(trace, j, n, pose, after);
    RecentIsOrdered(trace);
    hide StandsAt, Gapless, Recent, Numbered, Sessions.PoseFor;
    var recent := Recent(trace);
    var latest := Sessions.Latest(recent, max);
    assert latest[|latest| - 1 - after] == recent[|recent| - 1 - after];
    Sessions.PoseForFinds(latest, Numbered(trace), |latest| - 1 - after);
  }

  /** A pose is found under its sequence exactly when it was sent since poses were last dropped, among the latest. */
  lemma RetainedIffSentLately(trace: seq<Accepted>, max: nat, n: nat, pose: Pose)
    requires Gapless(trace)
    ensures Sessions.PoseFor(Sessions.Latest(Recent(trace), max), n) == Some(pose)
            <==> exists j, after: nat :: after < max && StandsAt(trace, j, n, pose, after)
  {
    hide StandsAt, Gapless, Recent, Sessions.PoseFor, Sessions.Latest;
    if Sessions.PoseFor(Sessions.Latest(Recent(trace), max), n) == Some(pose) {
      var j, after := SentIfRetained(trace, max, n);
    }
    if j, after: nat :| after < max && StandsAt(trace, j, n, pose, after) {
      RetainedIfSent(trace, max, j, n, pose, after);
    }
  }

  /**
   * So each accepted batch has a pose the publisher sent under that sequence, since the last resume or
   * restart, with fewer than `max` others after it.
   */
  lemma BatchPoseWasSent(trace: seq<Accepted>, max: nat, i: nat) returns (j: nat, after: nat)
    requires Placed(trace, max) && i < |trace| && trace[i].Logged?
    ensures j < i && after < max && StandsAt(trace[..i], j, trace[i].batch.poseSequence, trace[i].batch.pose, after)
  {
    assert Finds(trace[..i], max, trace[i].batch);
    j, after := SentIfRetained(trace[..i], max, trace[i].batch.poseSequence);
  }

  // ---------------------------------------------------------------- the session's row

  function PointsOf(log: seq<Batch>): nat {
    if |log| == 0 then 0 else PointsOf(log[..|log| - 1]) + |log[|log| - 1].points|
  }

  /** The row has counted the first `m` logged batches. */
  ghost predicate Tallied(row: Sessions.SessionRow, log: seq<Batch>, m: nat) {
    m <= |log| && row.pointBatches == m && row.totalPoints == PointsOf(log[..m])
  }

  /** How many logged batches the row has counted: all of them, or all but the last. */
  function Counted(row: Sessions.SessionRow, log: seq<Batch>): nat {
    if Position(log, |log|) <= row.lastSequence || |log| == 0 then |log| else |log| - 1
  }

  /** The row is at most one batch behind the log, and that one is past the replay start. */
  ghost predicate Kept(row: Sessions.SessionRow, trace: seq<Accepted>, log: Log) {
    var m := Counted(row, log.records);
    && Tallied(row, log.records, m) && log.checkpoint <= m
    && row.lastSequence + (|log.records| - m) == Numbered(trace)
    && row.closed == Shut(trace)
  }

  /** The counters after replaying the log from `start` over a row. */
  function Recount(row: Sessions.SessionRow, log: seq<Batch>, start: nat, n: nat): Sessions.SessionRow
    requires start <= n <= |log|
  {
    if start == n then row
    else
      var before, b := Recount(row, log, start, n - 1), log[n - 1];
      if b.sequence > before.lastSequence then
        before.(lastSequence := b.sequence, totalPoints := before.totalPoints + |b.points|,
                pointBatches := before.pointBatches + 1)
      else before
  }

  method ReplayCounters(was: Sessions.SessionRow, log: seq<Batch>, start: nat) returns (row: Sessions.SessionRow)
    requires start <= |log|
    ensures row == Recount(was, log, start, |log|)
  {
    row := was;
    for i := start to |log|
      invariant row == Recount(was, log, start, i)
    {
      if log[i].sequence > row.lastSequence {
        row := row.(lastSequence := log[i].sequence, totalPoints := row.totalPoints + |log[i].points|,
                    pointBatches := row.pointBatches + 1);
      }
    }
  }

  lemma {:induction false} RecountSkips(row: Sessions.SessionRow, log: seq<Batch>, start: nat, n: nat)
    requires Increasing(log) && start <= n <= |log| && Position(log, n) <= row.lastSequence
    ensures Recount(row, log, start, n) == row
    decreases n
  {
    if start < n {
      PositionGrows(log, n - 1, n);
      RecountSkips(row, log, start, n - 1);
    }
  }

  /** Replay brings the row up to the log, whether or not it had counted the last batch. */
  lemma RecountCatchesUp(row: Sessions.SessionRow, trace: seq<Accepted>, log: Log)
    requires Gapless(trace) && log.records == Batches(trace) && Kept(row, trace, log)
    ensures var row' := Recount(row, log.records, log.checkpoint, |log.records|);
            && Kept(row', trace, log) && row'.lastSequence == Numbered(trace)
            && (row'.lastSequence == row.lastSequence ==> row' == row) && row'.publisher == row.publisher
  {
    var records := log.records;
    LoggedBelowCount(trace);
    if Counted(row, records) == |records| {
      RecountSkips(row, records, log.checkpoint, |records|);
    } else {
      var m := |records| - 1;
      assert m > 0 ==> records[m - 1].sequence < records[m].sequence;
      RecountSkips(row, records, log.checkpoint, m);
      assert records[..|records|][..m] == records[..m] && records[..|records|] == records;
    }
  }

  /** The session has counted one more batch, and nothing else about it changed. */
  predicate CountedIn(before: Sessions.SessionRecord, after: Sessions.SessionRecord, h: BatchLog.Header) {
    && after.publisher == before.publisher && after.closed == before.closed
    && after.lastSequence == h.sequence && after.lastPoseSequence == before.lastPoseSequence
    && after.totalPoints == before.totalPoints + h.pointCount
    && after.pointBatches == before.pointBatches + 1 && after.poses == before.poses
  }

  // ---------------------------------------------------------------- the server's side of one session

  /** A session its publisher created, from then on. */
  class Publisher {
    const id: SessionId
    const publisher: string
    const maxRetainedPoses: nat
    const journal: Journal        // the session's log and chunks

    var row: Sessions.SessionRow  // on disk
    ghost var trace: seq<Accepted>

    // dies with the process, as the journal's store does
    var sessions: Sessions.SessionStore
    var budget: nat               // session rows written before the process dies
    var dead: bool

    /** Holds at every moment: the log is the accepted batches and the disk is one the store can be opened on. */
    ghost predicate Durable() reads this, journal, journal.store {
      && journal.Safe() && journal.id == id && row.publisher == publisher
      && Gapless(trace) && Placed(trace, maxRetainedPoses) && Obeyed(trace)
      && journal.Records() == Batches(trace) && Kept(row, trace, journal.OnDisk().logs[id])
    }

    /** The session in memory is the row with the poses accepted lately. */
    ghost predicate SessionUp() reads this`sessions, this`row, this`trace, sessions {
      && sessions.Valid() && sessions.maxRetainedPoses == maxRetainedPoses && id in sessions.sessions
      && Sessions.RowOf(sessions.sessions[id]) == row && row.lastSequence == Numbered(trace)
      && sessions.sessions[id].poses == Sessions.Latest(Recent(trace), maxRetainedPoses)
    }

    ghost predicate Alive() reads this, journal, journal.store, sessions {
      Durable() && !dead && journal.Up() && SessionUp()
    }

    /** The session has just been created. */
    constructor (journal: Journal, sessions: Sessions.SessionStore)
      requires journal.Up() && journal.OnDisk().logs[journal.id] == Log([], false, 0)
      requires sessions.Valid() && journal.id in sessions.sessions
      requires var s := sessions.sessions[journal.id];
               s == Sessions.SessionRecord(s.publisher, false, 0, None, 0, 0, [])
      ensures Alive() && trace == [] && this.journal == journal && this.sessions == sessions
      ensures id == journal.id && publisher == sessions.sessions[id].publisher
    {
      id, this.journal, this.sessions, maxRetainedPoses := journal.id, journal, sessions, sessions.maxRetainedPoses;
      row, publisher := Sessions.RowOf(sessions.sessions[journal.id]), sessions.sessions[journal.id].publisher;
      trace, budget, dead := [], 0, false;
    }

    /** Write the session's row, unless the process dies first. */
    method SyncSession(next: Sessions.SessionRow) returns (alive: bool)
      modifies this`row, this`budget, this`dead
      ensures dead == (old(dead) || !alive) && row == if alive then next else old(row)
    {
      alive := budget > 0;
      if alive { budget, row := budget - 1, next; } else { dead := true; }
    }

    // -------------------------------------------------------------- messages

    /** Whether a message is accepted: from the owner, while the session is not shut, with exactly the next number. */
    ghost predicate Next(sender: string, sequence: nat) reads this {
      sender == publisher && !Shut(trace) && sequence == Numbered(trace) + 1
    }

    method OnPose(sender: string, sequence: nat, pose: Pose, wellFormed: bool)
      requires Alive()
      modifies this`row, this`trace, this`budget, this`dead, sessions
      ensures Durable() && (!dead ==> Alive())
      ensures trace == old(trace)
              + if !dead && old(Next(sender, sequence)) && wellFormed then [Posed(sequence, pose)] else []
    {
      hide ChunkStore.Recoverable, Gapless, Placed, Obeyed, Kept, Batches, Recent, Numbered, Shut, Journal.Up;
      RowIsOpen(row, trace, journal.OnDisk().logs[id]);
      var outcome := sessions.ApplyPoseUpdate(id, sender, sequence, pose, wellFormed);
      if outcome != Sessions.Accepted { return; }
      ghost var a := Posed(sequence, pose);
      TraceGrows(trace, a, maxRetainedPoses);
      RowMovesOn(row, Sessions.RowOf(sessions.sessions[id]), trace, a, journal.OnDisk().logs[id]);
      var alive := SyncSession(Sessions.RowOf(sessions.sessions[id]));
      if alive {
        LatestOfMore(Recent(trace), (sequence, pose), maxRetainedPoses);
        trace := trace + [a];
      }
    }

    /** Close the session at its next number; from then on nothing but a resume is accepted. */
    method OnClose(sender: string, sequence: nat)
      requires Alive()
      modifies this`row, this`trace, this`budget, this`dead, sessions
      ensures Durable() && (!dead ==> Alive())
      ensures trace == old(trace) + if !dead && old(Next(sender, sequence)) then [Closed(sequence)] else []
      ensures !dead && old(Next(sender, sequence)) ==> row.closed && sessions.sessions[id].closed && Shut(trace)
    {
      hide ChunkStore.Recoverable, Gapless, Placed, Obeyed, Kept, Batches, Recent, Numbered, Shut, Journal.Up;
      RowIsOpen(row, trace, journal.OnDisk().logs[id]);
      var outcome := sessions.CloseSession(id, sender, sequence);
      if outcome != Sessions.Accepted { return; }
      ghost var a := Closed(sequence);
      TraceGrows(trace, a, maxRetainedPoses);
      RowMovesOn(row, Sessions.RowOf(sessions.sessions[id]), trace, a, journal.OnDisk().logs[id]);
      var alive := SyncSession(Sessions.RowOf(sessions.sessions[id]));
      if alive { trace := trace + [a]; }
    }

    /** A resume reopens the session for its owner and drops the poses, unless the client is ahead. */
    method OnResume(sender: string, clientSequence: nat)
      requires Alive()
      modifies this`row, this`trace, this`budget, this`dead, sessions
      ensures Durable() && (!dead ==> Alive())
      ensures var resumed := !dead && sender == publisher && clientSequence <= Numbered(old(trace));
              && trace == old(trace) + (if resumed then [Resumed] else [])
              && (resumed ==> !row.closed && !sessions.sessions[id].closed && sessions.sessions[id].poses == [])
              && (!dead && !resumed ==> sessions.sessions == old(sessions.sessions) && row == old(row))
    {
      hide ChunkStore.Recoverable, Gapless, Placed, Obeyed, Kept, Batches, Recent, Numbered, Shut, Journal.Up;
      RowIsOpen(row, trace, journal.OnDisk().logs[id]);
      var outcome := sessions.ResumeSession(id, sender, clientSequence);
      if outcome != Sessions.Accepted { return; }
      TraceGrows(trace, Resumed, maxRetainedPoses);
      RowMovesOn(row, Sessions.RowOf(sessions.sessions[id]), trace, Resumed, journal.OnDisk().logs[id]);
      var alive := SyncSession(Sessions.RowOf(sessions.sessions[id]));
      if alive { trace := trace + [Resumed]; }
    }

    /** The pose still retained under a pose sequence. */
    ghost function Retained(poseSequence: nat): Option<Pose>
      reads this, sessions
      requires id in sessions.sessions
    {
      Sessions.PoseFor(sessions.sessions[id].poses, poseSequence)
    }

    /** The batch is whole, names a pose still retained, and under that pose does not spread too far. */
    ghost predicate Storable(h: BatchLog.Header, points: seq<Point>)
      reads this, sessions, journal, journal.store
      requires id in sessions.sessions
    {
      && |points| == h.pointCount && h.poseSequence > 0 && Retained(h.poseSequence).Some?
      && journal.Fits(Retained(h.poseSequence).value, points)
    }

    /**
     * A batch over the publisher's connection: its pose must still be retained. Accepted, it is logged
     * and fused, then counted in the row, then in memory; its number is ahead of the log, which is
     * what the store asks for. The process may die after any of the steps the store takes, or before
     * the row is written; the batch is then accepted exactly when it reached the log.
     */
    method OnBatch(sender: string, h: BatchLog.Header, points: seq<Point>, wellFormed: bool, death: Death)
      requires Alive() && Possible(journal.store.setting, id, death)
      modifies this`row, this`trace, this`budget, this`dead, sessions, journal`left, journal.store
      ensures Durable() && (!dead ==> Alive()) && journal.store.setting == old(journal.store.setting)
      ensures var storable := old(Next(sender, h.sequence)) && wellFormed && old(Storable(h, points));
              && (!storable ==> trace == old(trace) && !dead)
              && (storable ==>
                    && (death.Some? ==> dead)
                    && (death.None? || trace != old(trace) ==>
                         trace == old(trace) + [Logged(Batch(h.sequence, h.poseSequence,
                                                             old(Retained(h.poseSequence)).value, points))])
                    && (!dead ==> CountedIn(old(sessions.sessions[id]), sessions.sessions[id], h)))
    {
      hide ChunkStore.Recoverable, Gapless, Placed, Obeyed, Kept, Batches, Recent, Numbered, Shut, Inv, AllIndexed,
          Spanned;
      RowIsOpen(row, trace, journal.OnDisk().logs[id]);
      var outcome, pose := sessions.PreparePointBatch(id, sender, h, wellFormed && |points| == h.pointCount);
      if outcome != Sessions.Accepted { return; }
      var b := Batch(h.sequence, h.poseSequence, pose.value, points);
      TraceGrows(trace, Logged(b), maxRetainedPoses);
      LoggedBelowCount(trace);
      StoreBatch(b, h, death);
    }

    /** A checkpoint moves the replay start; the row has counted everything by then. */
    method OnCheckpoint(maxChunks: Option<nat>)
      requires Alive()
      modifies journal.store
      ensures Alive() && journal.store.setting == old(journal.store.setting)
    {
      hide ChunkStore.Recoverable, Gapless, Placed, Obeyed, Kept, Batches, Recent, Numbered, Shut, Inv, AllIndexed;
      CheckpointKeepsRow(row, trace, journal.OnDisk().logs[id]);
      journal.Checkpoint(maxChunks);
    }

    /** Hand an accepted batch to the store, then count it in the row and in memory. */
    method StoreBatch(b: Batch, h: BatchLog.Header, death: Death)
      requires Alive() && Possible(journal.store.setting, id, death)
      requires b.sequence == h.sequence == Numbered(trace) + 1 && |b.points| == h.pointCount && !Shut(trace)
      requires Finds(trace, maxRetainedPoses, b)
      modifies this`row, this`trace, this`budget, this`dead, sessions, journal`left, journal.store
      ensures Durable() && (!dead ==> Alive()) && journal.store.setting == old(journal.store.setting)
      ensures var fits := old(journal.Fits(b.pose, b.points));
              && (!fits ==> trace == old(trace) && !dead)
              && (fits && death.Some? ==> dead && (trace == old(trace) || trace == old(trace) + [Logged(b)]))
              && (fits && death.None? ==> trace == old(trace) + [Logged(b)])
              && (fits && !dead ==> CountedIn(old(sessions.sessions[id]), sessions.sessions[id], h))
    {
      hide ChunkStore.Recoverable, Gapless, Placed, Obeyed, Kept, Batches, Recent, Numbered, Shut, Finds,
          Journal.Fits, LeftBehind, ChunkStore.Current, Inv, AllIndexed, CaughtUp, ChunkStore.Valid;
      ghost var a := Logged(b);
      TraceGrows(trace, a, maxRetainedPoses);
      AheadOfLog(trace, journal.Records(), b);
      ghost var log := journal.OnDisk().logs[id];
      var next := Sessions.RowOf(Sessions.AfterBatch(sessions.sessions[id], h));
      RowCounts(row, next, trace, b, log);
      if death.Some? && journal.Fits(b.pose, b.points) {
        journal.CanDie(b, death.value);
        var stored := journal.DieStoring(b, death.value(journal.store.Current(), b));
        dead := true;
        if stored { trace := trace + [a]; }
        return;
      }
      var stored := journal.Append(b);
      if !stored { return; }
      trace := trace + [a];
      var alive := SyncSession(next);
      if !alive { return; }
      var committed := sessions.CommitPointBatch(id, h);
    }

    // -------------------------------------------------------------- restart

    /** Start again on what is on disk: bring the row up to the log, then open the store; poses are gone. */
    method Restart(writes: nat)
      requires Durable()
      modifies this`row, this`trace, this`budget, this`dead, this`sessions, journal`left, journal`store
      ensures Durable() && (!dead ==> Alive()) && trace == old(trace) + [Restarted]
      ensures journal.store.setting == old(journal.store.setting)
      ensures journal.store == old(journal.store) || fresh(journal.store)
      ensures sessions == old(sessions) || fresh(sessions)
    {
      hide ChunkStore.Recoverable, Inv, Gapless, Placed, Obeyed, Kept, Batches, Recent, Numbered, Shut, Stable;
      hide Recount, AllIndexed, CaughtUp, ChunkStore.Valid;
      budget, dead := writes, false;
      var log := journal.OnDisk().logs[id];
      TraceGrows(trace, Restarted, maxRetainedPoses);
      KeptSays(row, trace, log);
      RecountCatchesUp(row, trace, log);
      var next := ReplayCounters(row, log.records, log.checkpoint);
      RowForgets(row, trace, log);
      RowForgets(next, trace, log);
      trace := trace + [Restarted];
      if next.lastSequence != row.lastSequence {
        var alive := SyncSession(next);
        if !alive { return; }
      }
      CheckpointKeepsRow(row, trace, log);
      journal.Reopen();
      OpenSession();
    }

    /** Restore the session from its row, without poses. */
    method OpenSession()
      modifies this`sessions
      ensures fresh(sessions) && sessions.Valid() && sessions.maxRetainedPoses == maxRetainedPoses
      ensures id in sessions.sessions && Sessions.RowOf(sessions.sessions[id]) == row
              && sessions.sessions[id].poses == []
    {
      sessions := new Sessions.SessionStore(maxRetainedPoses);
      sessions.RestoreSessions(map[id := row]);
    }
  }

  /** Once the row has counted the whole log, the replay start may move anywhere in it. */
  lemma CheckpointKeepsRow(row: Sessions.SessionRow, trace: seq<Accepted>, log: Log)
    requires Kept(row, trace, log) && row.lastSequence == Numbered(trace)
    ensures forall torn, start: nat :: start <= |log.records| ==> Kept(row, trace, Log(log.records, torn, start))
  {
  }

  lemma KeptSays(row: Sessions.SessionRow, trace: seq<Accepted>, log: Log)
    requires Kept(row, trace, log)
    ensures log.checkpoint <= |log.records|
  {
  }

  lemma RowIsOpen(row: Sessions.SessionRow, trace: seq<Accepted>, log: Log)
    requires Kept(row, trace, log)
    ensures row.closed == Shut(trace)
  {
  }

  lemma RowForgets(row: Sessions.SessionRow, trace: seq<Accepted>, log: Log)
    requires Kept(row, trace, log)
    ensures Kept(row, trace + [Restarted], log)
  {
    assert (trace + [Restarted])[..|trace|] == trace;
  }

  lemma AheadOfLog(trace: seq<Accepted>, records: seq<Batch>, b: Batch)
    requires Gapless(trace) && records == Batches(trace) && b.sequence == Numbered(trace) + 1
    ensures b.sequence > Position(records, |records|)
  {
    LoggedBelowCount(trace);
  }

  /** A logged batch, before and after it is counted in the row. */
  lemma RowCounts(row: Sessions.SessionRow, next: Sessions.SessionRow, trace: seq<Accepted>, b: Batch, log: Log)
    requires Gapless(trace) && log.records == Batches(trace) && Kept(row, trace, log)
             && row.lastSequence == Numbered(trace)
    requires b.sequence == next.lastSequence == Numbered(trace) + 1 && next.closed == row.closed
    requires next.pointBatches == row.pointBatches + 1 && next.totalPoints == row.totalPoints + |b.points|
    ensures forall torn :: Kept(row, trace + [Logged(b)], Log(log.records + [b], torn, log.checkpoint))
    ensures forall torn :: Kept(next, trace + [Logged(b)], Log(log.records + [b], torn, log.checkpoint))
    ensures forall torn :: Kept(row, trace, Log(log.records, torn, log.checkpoint))
  {
    LoggedBelowCount(trace);
    var records := log.records + [b];
    assert (trace + [Logged(b)])[..|trace|] == trace;
    assert records[..|log.records|] == log.records && records[..|records|] == records
        && log.records[..|log.records|] == log.records;
  }

  /** A numbered message other than a batch, or a resume, counted in the row. */
  lemma RowMovesOn(row: Sessions.SessionRow, next: Sessions.SessionRow, trace: seq<Accepted>, a: Accepted, log: Log)
    requires Gapless(trace) && log.records == Batches(trace) && Kept(row, trace, log)
             && row.lastSequence == Numbered(trace)
    requires !a.Logged? && next.lastSequence == row.lastSequence + (if Forgets(a) then 0 else 1)
    requires next.pointBatches == row.pointBatches && next.totalPoints == row.totalPoints
    requires next.closed == (a.Closed? || (!a.Resumed? && row.closed))
    ensures Kept(next, trace + [a], log)
  {
    LoggedBelowCount(trace);
    assert (trace + [a])[..|trace|] == trace;
  }

  /** Adding to the latest and trimming is trimming the whole. */
  lemma LatestOfMore<T>(items: seq<T>, t: T, max: nat)
    ensures Sessions.Latest(Sessions.Latest(items, max) + [t], max) == Sessions.Latest(items + [t], max)
  {
  }

  // ---------------------------------------------------------------- every run

  /** What can happen to a session; each message comes with the rows it may write before the process dies. */
  datatype Event =
    | PoseUpdate(publisher: string, sequence: nat, pose: Pose, wellFormed: bool, writes: nat)
    | PointBatch(publisher: string, header: BatchLog.Header, points: seq<Point>, wellFormed: bool, writes: nat,
                 death: Death)
    | Close(publisher: string, sequence: nat, writes: nat)
    | Resume(publisher: string, clientSequence: nat, writes: nat)
    | Checkpoint(maxChunks: Option<nat>, writes: nat)
    | Restart(writes: nat)

  ghost predicate CanHappen(g: Setting, session: SessionId, e: Event) {
    e.PointBatch? ==> Possible(g, session, e.death)
  }

  method HandleEvent(p: Publisher, e: Event)
    requires p.Durable() && (!p.dead ==> p.Alive()) && CanHappen(p.journal.store.setting, p.id, e)
    modifies p, p.sessions, p.journal, p.journal.store
    ensures p.Durable() && (!p.dead ==> p.Alive()) && p.journal.store.setting == old(p.journal.store.setting)
    ensures p.sessions == old(p.sessions) || fresh(p.sessions)
    ensures p.journal.store == old(p.journal.store) || fresh(p.journal.store)
  {
    hide ChunkStore.Recoverable, Gapless, Placed, Obeyed, Kept, Batches, Journal.Up, Possible;
    if !e.Restart? && p.dead { return; }
    p.budget := e.writes;
    match e
    case PoseUpdate(publisher, sequence, pose, wellFormed, _) => p.OnPose(publisher, sequence, pose, wellFormed);
    case PointBatch(publisher, h, points, wellFormed, _, death) => p.OnBatch(publisher, h, points, wellFormed, death);
    case Close(publisher, sequence, _) => p.OnClose(publisher, sequence);
    case Resume(publisher, clientSequence, _) => p.OnResume(publisher, clientSequence);
    case Checkpoint(maxChunks, _) => p.OnCheckpoint(maxChunks);
    case Restart(writes) => p.Restart(writes);
  }

  /**
   * Whatever the publisher sends, whenever the process dies and however often it starts again:
   * accepted messages are numbered without gaps, none of them comes between a close and the next
   * resume, every accepted batch has the pose accepted under its pose sequence, and the log is those
   * batches, with increasing sequences. While the process is up, the session's counters are those of
   * the log and the store holds each batch exactly once.
   */
  method ServePublisher(p: Publisher, events: seq<Event>)
    requires p.Durable() && (!p.dead ==> p.Alive())
    requires forall e :: e in events ==> CanHappen(p.journal.store.setting, p.id, e)
    modifies p, p.sessions, p.journal, p.journal.store
    ensures p.Durable() && (!p.dead ==> p.Alive())
    ensures Gapless(p.trace) && Obeyed(p.trace) && Placed(p.trace, p.maxRetainedPoses)
    ensures Increasing(Batches(p.trace))
    ensures p.journal.Safe() && p.journal.id == p.id && p.journal.Records() == Batches(p.trace)
    ensures !p.dead ==>
              && p.id in p.sessions.sessions
              && var s := p.sessions.sessions[p.id];
                 && s.lastSequence == Numbered(p.trace) && s.pointBatches == |Batches(p.trace)|
                 && s.totalPoints == PointsOf(Batches(p.trace)) && s.closed == Shut(p.trace)
                 && s.poses == Sessions.Latest(Recent(p.trace), p.maxRetainedPoses)
    ensures !p.dead ==> Restored(p.journal.store.setting, p.journal.store.Current(), p.id, Batches(p.trace))
  {
    for i := 0 to |events|
      invariant p.Durable() && (!p.dead ==> p.Alive()) && p.journal.store.setting == old(p.journal.store.setting)
      invariant p.sessions == old(p.sessions) || fresh(p.sessions)
      invariant p.journal.store == old(p.journal.store) || fresh(p.journal.store)
    {
      hide ChunkStore.Recoverable, Gapless, Placed, Obeyed, Kept, Batches, Journal.Up,
          Publisher.SessionUp, CanHappen;
      HandleEvent(p, events[i]);
    }
    Accounted(p);
  }

  lemma Accounted(p: Publisher)
    requires p.Durable() && (!p.dead ==> p.Alive())
    ensures Increasing(Batches(p.trace))
    ensures !p.dead ==>
              && p.sessions.sessions[p.id].pointBatches == |Batches(p.trace)|
              && p.sessions.sessions[p.id].totalPoints == PointsOf(Batches(p.trace))
              && p.sessions.sessions[p.id].closed == Shut(p.trace)
              && Restored(p.journal.store.setting, p.journal.store.Current(), p.id, Batches(p.trace))
  {
    hide ChunkStore.Recoverable, Placed, Restored;
    LoggedBelowCount(p.trace);
    var log := Batches(p.trace);
    assert log[..|log|] == log;
    if !p.dead { p.journal.HoldsRecords(); }
  }
}
