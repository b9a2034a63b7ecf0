/** Main results about durability: exact recovery and checkpoint safety over every run. */
module Recovery {
  import opened Voxels
  import opened LogHistory
  import opened StoreMachine
  import opened ChunkLife
  import opened StoreSafety

  /** The batches a run appended to a session, in order. */
  function Appended(run: seq<Step>, session: SessionId): seq<Batch> {
    if |run| == 0 then []
    else
      var before := Appended(run[..|run| - 1], session);
      match run[|run| - 1]
      case Append(s, b) => if s == session then before + [b] else before
      case _ => before
  }

  ghost predicate Reached(g: Setting, run: seq<Step>, s: State) {
    Exec(g, START, run) == Some(s)
  }

  lemma ReachedInv(g: Setting, run: seq<Step>, s: State)
    requires Stable(g.voxelOf) && Reached(g, run, s)
    ensures Inv(g, s)
  {
    RunKeepsInv(g, START, run);
  }

  /** Crashes, sweeps and replays never add, drop or reorder a logged batch. */
  lemma {:induction false} LogIsWhatWasAppended(g: Setting, run: seq<Step>, s: State, session: SessionId)
    requires Reached(g, run, s)
    ensures session in s.disk.logs ==> s.disk.logs[session].records == Appended(run, session)
    ensures session !in s.disk.logs ==> Appended(run, session) == []
    decreases |run|
  {
    if |run| > 0 {
      var t := Exec(g, START, run[..|run| - 1]).value;
      LogIsWhatWasAppended(g, run[..|run| - 1], t, session);
      StepChangesLog(g, t, run[|run| - 1], session);
    }
  }

  lemma StepChangesLog(g: Setting, s: State, step: Step, session: SessionId)
    requires Legal(g, s, step)
    ensures var t := Apply(g, s, step);
            && (session in s.disk.logs ==> session in t.disk.logs)
            && (session in s.disk.logs ==>
                  t.disk.logs[session].records ==
                    s.disk.logs[session].records + if step.Append? && step.session == session then [step.batch] else [])
            && (session !in s.disk.logs && session in t.disk.logs ==> t.disk.logs[session].records == [])
  {
    var t := Apply(g, s, step);
    if session in s.disk.logs && !(step.Append? && step.session == session) {
      var r := s.disk.logs[session].records;
      assert r + [] == r;
    }
  }

  /**
   * Whenever a session has been replayed to the end of its log, every chunk holds each batch ever
   * appended exactly once: same voxels, same insertion order, same sums. The run may contain any
   * interleaving of flushes, evictions, sweeps and crashes.
   */
  lemma CaughtUpIsExact(g: Setting, run: seq<Step>, s: State, k: Key)
    requires Stable(g.voxelOf) && Reached(g, run, s) && Hosted(s, k) && CaughtUp(s, k.session)
    ensures Strip(Resident(g, ChunkAt(s, k)).vox) == Strip(FoldAll(g, k, Appended(run, k.session)).vox)
  {
    ReachedInv(g, run, s);
    LogIsWhatWasAppended(g, run, s, k.session);
    CaughtUpChunk(g, k, ChunkAt(s, k));
  }

  lemma CaughtUpChunk(g: Setting, k: Key, c: Chunk)
    requires ChunkOk(g, k, c) && c.tail.fused == |c.log.records|
    ensures Strip(Resident(g, c).vox) == Strip(FoldAll(g, k, c.log.records).vox)
  {
    var log := c.log.records;
    SeededHolds(g, k, c);
    QuietKeepsVoxels(g, k, log, MemApplied(c), Position(log, |log|));
    HistoryIsFold(g, k, log, Position(log, |log|));
  }

  /**
   * Every record before the checkpoint that touches a chunk is already in that chunk's sidecar,
   * which itself is a faithful prefix of the log's history.
   */
  lemma CheckpointIsSafe(g: Setting, run: seq<Step>, s: State, k: Key, i: nat)
    requires Stable(g.voxelOf) && Reached(g, run, s) && Hosted(s, k)
    requires i < s.disk.logs[k.session].checkpoint
    ensures i < |s.disk.logs[k.session].records|
    ensures var b := s.disk.logs[k.session].records[i];
            Touches(g, k, b) ==>
              && k in s.disk.acc && b.sequence <= s.disk.acc[k].applied
              && Load(g.voxelOf, s.disk.acc[k].records).Some?
              && Strip(Load(g.voxelOf, s.disk.acc[k].records).value)
                 == Strip(History(g, k, s.disk.logs[k.session].records, s.disk.acc[k].applied).vox)
  {
    ReachedInv(g, run, s);
    var c := ChunkAt(s, k);
    assert ChunkOk(g, k, c);
    PositionGrows(c.log.records, i + 1, c.log.checkpoint);
    assert OnDisk(g, k, c, c.log.checkpoint);
  }

  // ---------------------------------------------------------------- replay reaches the end of the log

  function Replay(session: SessionId, n: nat): seq<Step> {
    seq(n, _ => Fuse(session))
  }

  lemma {:induction false} ReplayRuns(g: Setting, s: State, session: SessionId, n: nat)
    requires Confined(s) && session in s.disk.logs
    requires s.mem.tails[session].fused + n <= |s.disk.logs[session].records|
    ensures Exec(g, s, Replay(session, n)).Some?
    ensures var u := Exec(g, s, Replay(session, n)).value;
            Confined(u) && u.disk == s.disk && u.mem.tails[session].fused == s.mem.tails[session].fused + n
    decreases n
  {
    if n > 0 {
      ReplayRuns(g, s, session, n - 1);
      assert Replay(session, n)[..n - 1] == Replay(session, n - 1);
      var t := Exec(g, s, Replay(session, n - 1)).value;
      StepKeepsConfined(g, t, Fuse(session));
      var b := t.disk.logs[session].records[t.mem.tails[session].fused];
      FusePerChunk(g, t.disk, t.mem, session, b, None, Key(session, Cell(0, 0, 0)));
    }
  }

  /** The session is fully in the cache: its log is `log` and each chunk holds each batch exactly once. */
  ghost predicate Restored(g: Setting, s: State, session: SessionId, log: seq<Batch>) {
    && CaughtUp(s, session) && s.disk.logs[session].records == log
    && forall k: Key :: k.session == session ==>
         Hosted(s, k) && Strip(Resident(g, ChunkAt(s, k)).vox) == Strip(FoldAll(g, k, log).vox)
  }

  /** Replaying to the end of the log restores the session, from any state that satisfies the invariant. */
  lemma ReplayRestores(g: Setting, s: State, session: SessionId, n: nat)
    requires Stable(g.voxelOf) && Inv(g, s) && session in s.disk.logs
    requires s.mem.tails[session].fused + n == |s.disk.logs[session].records|
    ensures Exec(g, s, Replay(session, n)).Some?
    ensures Restored(g, Exec(g, s, Replay(session, n)).value, session, s.disk.logs[session].records)
  {
    ReplayRuns(g, s, session, n);
    RunKeepsInv(g, s, Replay(session, n));
    var u := Exec(g, s, Replay(session, n)).value;
    forall k: Key | k.session == session
      ensures Hosted(u, k)
              && Strip(Resident(g, ChunkAt(u, k)).vox) == Strip(FoldAll(g, k, s.disk.logs[session].records).vox)
    {
      assert Hosted(u, k);
      CaughtUpChunk(g, k, ChunkAt(u, k));
    }
  }

  /** After a crash the session starts replay at its checkpoint, with the log it had. */
  lemma CrashRewindsToCheckpoint(g: Setting, s: State, crash: Step, session: SessionId)
    requires Inv(g, s) && session in s.disk.logs && IsCrash(crash) && Legal(g, s, crash)
    ensures var t := Apply(g, s, crash);
            && session in t.disk.logs && session in t.mem.tails
            && t.disk.logs[session].records == s.disk.logs[session].records
            && t.mem.tails[session].fused == t.disk.logs[session].checkpoint <= |t.disk.logs[session].records|
  {
    StepChangesLog(g, s, crash, session);
    assert ChunkOk(g, Key(session, Cell(0, 0, 0)), ChunkAt(s, Key(session, Cell(0, 0, 0))));
    var r := s.disk.logs[session].records;
    assert r + [] == r;
  }

  /**
   * Crash anywhere (between steps, while appending, or inside a persist), restart, and replay from
   * the checkpoint: the log still holds every appended batch and the cache holds each exactly once.
   */
  lemma CrashRecoveryIsExact(g: Setting, run: seq<Step>, s: State, crash: Step, session: SessionId)
    requires Stable(g.voxelOf) && Reached(g, run, s) && session in s.disk.logs
    requires IsCrash(crash) && Legal(g, s, crash)
    ensures var t := Apply(g, s, crash);
            && session in t.disk.logs && t.disk.logs[session].checkpoint <= |t.disk.logs[session].records|
            && var replay := Replay(session, |t.disk.logs[session].records| - t.disk.logs[session].checkpoint);
            && Exec(g, t, replay).Some?
            && Restored(g, Exec(g, t, replay).value, session, Appended(run, session))
  {
    ReachedInv(g, run, s);
    StepKeepsInv(g, s, crash);
    CrashRewindsToCheckpoint(g, s, crash, session);
    LogIsWhatWasAppended(g, run, s, session);
    var t := Apply(g, s, crash);
    ReplayRestores(g, t, session, |t.disk.logs[session].records| - t.disk.logs[session].checkpoint);
  }

  /** Every prefix of a run is a run. */
  lemma {:induction false} ExecPrefix(g: Setting, s: State, run: seq<Step>, n: nat)
    requires Exec(g, s, run).Some? && n <= |run|
    ensures Exec(g, s, run[..n]).Some?
    decreases |run|
  {
    if n < |run| {
      ExecPrefix(g, s, run[..|run| - 1], n);
      assert run[..|run| - 1][..n] == run[..n];
    } else {
      assert run[..n] == run;
    }
  }

  /**
   * The store's methods promise runs of the state machine; dying after any number of steps of such
   * a run is as harmless as dying between them.
   */
  lemma CrashInsideRunIsExact(g: Setting, s: State, run: seq<Step>, n: nat, u: State, crash: Step, session: SessionId)
    requires Stable(g.voxelOf) && Inv(g, s) && n <= |run| && Exec(g, s, run[..n]) == Some(u)
    requires session in u.disk.logs && IsCrash(crash) && Legal(g, u, crash)
    ensures var t := Apply(g, u, crash);
            && session in t.disk.logs && t.disk.logs[session].checkpoint <= |t.disk.logs[session].records|
            && var replay := Replay(session, |t.disk.logs[session].records| - t.disk.logs[session].checkpoint);
            && Exec(g, t, replay).Some?
            && Restored(g, Exec(g, t, replay).value, session, u.disk.logs[session].records)
  {
    RunKeepsInv(g, s, run[..n]);
    StepKeepsInv(g, u, crash);
    CrashRewindsToCheckpoint(g, u, crash, session);
    var t := Apply(g, u, crash);
    ReplayRestores(g, t, session, |t.disk.logs[session].records| - t.disk.logs[session].checkpoint);
  }
}
