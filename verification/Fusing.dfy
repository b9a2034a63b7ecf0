/** What fusing one batch changes in each chunk, and which chunks it touches. */
module Fusings {
  import opened Voxels
  import opened Poses
  import opened LogHistory
  import opened StoreMachine
  import opened ChunkLife
  import opened StoreSafety
  import opened Recovery
  import opened WriteBack
  import opened Sums

  /** A chunk that accepts the batch grows by the batch's points; any other keeps its voxels. */
  lemma FusedGathers(g: Setting, disk: Disk, mem: Mem, session: SessionId, b: Batch, restrict: Option<set<Cell>>,
                     k: Key)
    requires k in FuseMem(g, disk, mem, session, b, restrict).active
    ensures var m, pose := FuseMem(g, disk, mem, session, b, restrict), PoseOf(g, session, b);
            var was := ActiveAt(g, disk, mem, k).vox;
            if k in Accepting(g, disk, mem, session, b.sequence, pose, restrict, b.points) then
              k in m.cells && forall c :: Gathers(g, pose, k.chunk, b.points, was, m.active[k].vox,
                                                  m.cells[k].opportunities, c)
            else m.active[k].vox == was
  {
    hide FuseMem, Landed, AddPoints, Gathers, Spanned;
    var m, pose := FuseMem(g, disk, mem, session, b, restrict), PoseOf(g, session, b);
    var was := ActiveAt(g, disk, mem, k);
    FusePerChunk(g, disk, mem, session, b, restrict, k);
    SpannedIsLanded(g, pose, b.points, k.chunk);
    assert k.session == session ==> k == Key(session, k.chunk);
    if k in Accepting(g, disk, mem, session, b.sequence, pose, restrict, b.points) {
      forall c ensures Gathers(g, pose, k.chunk, b.points, was.vox, m.active[k].vox, m.cells[k].opportunities, c) {
        LandedGathers(g, pose, k.chunk, b.points, was.vox, m.cells[k].opportunities, c);
      }
    }
  }

  lemma FusedPending(g: Setting, disk: Disk, mem: Mem, session: SessionId, b: Batch, restrict: Option<set<Cell>>,
                     k: Key)
    requires k in FuseMem(g, disk, mem, session, b, restrict).active
    requires k in Accepting(g, disk, mem, session, b.sequence, PoseOf(g, session, b), restrict, b.points)
    ensures FuseMem(g, disk, mem, session, b, restrict).active[k].pending
            == ActiveAt(g, disk, mem, k).pending + Arrivals(g, PoseOf(g, session, b), k.chunk, b.points)
  {
    hide FuseMem, Landed, AddPoints, Spanned, Arrivals;
    FusePerChunk(g, disk, mem, session, b, restrict, k);
    SpannedIsLanded(g, PoseOf(g, session, b), b.points, k.chunk);
    LandedArrive(g, PoseOf(g, session, b), b.points, k.chunk);
    assert k == Key(session, k.chunk);
  }

  /** Writing chunks back and dropping clean ones leaves the voxels of those that stay resident. */
  lemma {:induction false} WriteBackKeepsResidents(g: Setting, s: State, run: seq<Step>, t: State)
    requires WritesBack(run) && Leads(g, s, run, t)
    ensures t.mem.active.Keys <= s.mem.active.Keys && t.mem.cells.Keys == s.mem.cells.Keys
    ensures forall k :: k in t.mem.active ==> t.mem.active[k].vox == s.mem.active[k].vox
    ensures forall k :: k in t.mem.cells ==> t.mem.cells[k].opportunities == s.mem.cells[k].opportunities
    decreases |run|
  {
    hide FuseMem, Restart, Save;
    if |run| > 0 {
      WriteBackKeepsResidents(g, s, run[..|run| - 1], Exec(g, s, run[..|run| - 1]).value);
    }
  }

  /** Which leaves every voxel of a chunk that stays resident with exactly the batch's share more. */
  lemma FusedStaysGathered(g: Setting, disk: Disk, mem: Mem, session: SessionId, b: Batch, restrict: Option<set<Cell>>,
                           run: seq<Step>, t: State)
    requires WritesBack(run) && Leads(g, State(disk, FuseMem(g, disk, mem, session, b, restrict)), run, t)
    ensures var pose := PoseOf(g, session, b);
            forall k :: k in t.mem.active ==>
              var was := ActiveAt(g, disk, mem, k).vox;
              if k in Accepting(g, disk, mem, session, b.sequence, pose, restrict, b.points) then
                k in t.mem.cells && forall c :: Gathers(g, pose, k.chunk, b.points, was, t.mem.active[k].vox,
                                                        t.mem.cells[k].opportunities, c)
              else t.mem.active[k].vox == was
  {
    hide FuseMem, Gathers, Accepting, ActiveAt;
    var m := FuseMem(g, disk, mem, session, b, restrict);
    WriteBackKeepsResidents(g, State(disk, m), run, t);
    forall k | k in t.mem.active
      ensures var pose, was := PoseOf(g, session, b), ActiveAt(g, disk, mem, k).vox;
              if k in Accepting(g, disk, mem, session, b.sequence, pose, restrict, b.points) then
                k in t.mem.cells && forall c :: Gathers(g, pose, k.chunk, b.points, was, t.mem.active[k].vox,
                                                        t.mem.cells[k].opportunities, c)
              else t.mem.active[k].vox == was
    {
      FusedGathers(g, disk, mem, session, b, restrict, k);
    }
  }

  // ---------------------------------------------------------------- a new batch

  /** A chunk holds what it held and a new batch's points, wherever it is kept. */
  ghost predicate Gained(g: Setting, before: State, after: State, session: SessionId, b: Batch, k: Key) {
    && Hosted(before, k) && Hosted(after, k)
    && var was, now := Strip(Resident(g, ChunkAt(before, k)).vox), Strip(Resident(g, ChunkAt(after, k)).vox);
       && (forall c :: Gathers(g, PoseOf(g, session, b), k.chunk, b.points, was, now, 0, c))
       && (k.chunk !in Spanned(g, PoseOf(g, session, b), b.points) ==> now == was)
  }

  /** Storing a new batch does that to every chunk of its session. */
  lemma StoredGains(g: Setting, before: State, after: State, session: SessionId, b: Batch, k: Key)
    requires Inv(g, before) && Inv(g, after) && CaughtUp(before, session) && CaughtUp(after, session)
    requires after.disk.logs[session].records == before.disk.logs[session].records + [b] && k.session == session
    ensures Gained(g, before, after, session, b, k)
  {
    var log := before.disk.logs[session].records;
    var pose, was, now := PoseOf(g, session, b), FoldAll(g, k, log), FoldAll(g, k, log + [b]);
    assert Hosted(before, k) && Hosted(after, k);
    CaughtUpChunk(g, k, ChunkAt(before, k));
    CaughtUpChunk(g, k, ChunkAt(after, k));
    assert (log + [b])[..|log|] == log;
    SpannedIsLanded(g, pose, b.points, k.chunk);
    hide Landed, Inv, Gathers, Spanned;
    forall c ensures Gathers(g, pose, k.chunk, b.points, Strip(was.vox), Strip(now.vox), 0, c) {
      LandedGathers(g, pose, k.chunk, b.points, was.vox, now.opportunities, c);
      StrippedGathers(g, pose, k.chunk, b.points, was.vox, now.vox, now.opportunities, c);
    }
  }

  lemma StrippedGathers(g: Setting, pose: Pose, chunk: Cell, points: seq<Point>, was: VoxelMap, now: VoxelMap, o: nat,
                        c: Cell)
    requires Gathers(g, pose, chunk, points, was, now, o, c)
    ensures Gathers(g, pose, chunk, points, Strip(was), Strip(now), 0, c)
  {
  }

  /** No chunk holds a new batch yet, whatever was written back in the meantime. */
  lemma NoneHolds(g: Setting, s: State, room: seq<Step>, u: State, session: SessionId, b: Batch, k: Key)
    requires Inv(g, s) && Legal(g, s, Append(session, b)) && k.session == session
    requires WritesBack(room) && Leads(g, Apply(g, s, Append(session, b)), room, u)
    ensures ActiveAt(g, u.disk, u.mem, k).applied < b.sequence
  {
    hide Save, Load, FuseMem, Restart;
    var t := Apply(g, s, Append(session, b));
    assert Hosted(s, k) && Hosted(t, k);
    var c, c' := ChunkAt(s, k), ChunkAt(t, k);
    ChunkOkIsCoherent(g, k, c);
    assert c' == c.(log := c'.log);
    assert MemApplied(c) <= Position(c.log.records, |c.log.records|);
    WriteBackKeepsContent(g, t, room, u, k);
  }

  // ---------------------------------------------------------------- after a recovery

  /** A session that has been recovered holds the plain sums of its log's points. */
  lemma RestoredSums(g: Setting, s: State, session: SessionId, log: seq<Batch>, k: Key, c: Cell)
    requires Restored(g, s, session, log) && k.session == session
    ensures Hosted(s, k)
    ensures SumsUp(g, k, log, Resident(g, ChunkAt(s, k)).vox, c)
  {
    HistorySums(g, k, log, c);
    StripEqual(Resident(g, ChunkAt(s, k)).vox, FoldAll(g, k, log).vox);
  }
}
