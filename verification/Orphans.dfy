/** Sidecars without a row: which runs leave none, and what a rebuild makes of one. */
module Orphans {
  import opened Voxels
  import opened Poses
  import opened LogHistory
  import opened StoreMachine
  import opened ChunkLife
  import opened StoreSafety
  import opened Recovery
  import opened Counters
  import opened RigidMotion
  import opened PoseCorrections
  import opened RebuildSpec
  import opened Rebuild

  // ---------------------------------------------------------------- runs that leave none

  /** No crash of the run interrupts a persist that would create a chunk's row. */
  ghost predicate RowsSurvive(g: Setting, run: seq<Step>)
    requires Exec(g, START, run).Some?
  {
    |run| == 0 ||
    (var step := run[|run| - 1];
     && RowsSurvive(g, run[..|run| - 1])
     && (step.CrashInPersist? ==> step.key in Exec(g, START, run[..|run| - 1]).value.disk.rows))
  }

  lemma StepKeepsRows(g: Setting, s: State, step: Step)
    requires Legal(g, s, step) && s.disk.acc.Keys <= s.disk.rows.Keys
    requires step.CrashInPersist? ==> step.key in s.disk.rows
    ensures Apply(g, s, step).disk.acc.Keys <= Apply(g, s, step).disk.rows.Keys
  {
    hide FuseMem, Restart, Save;
  }

  /** Such a run leaves no sidecar without a row, whatever else it does. */
  lemma {:induction false} RunLeavesNoOrphans(g: Setting, run: seq<Step>, s: State, session: SessionId)
    requires Reached(g, run, s) && RowsSurvive(g, run)
    ensures s.disk.acc.Keys <= s.disk.rows.Keys && NoOrphans(s, session)
    decreases |run|
  {
    if |run| > 0 {
      var t := Exec(g, START, run[..|run| - 1]).value;
      RunLeavesNoOrphans(g, run[..|run| - 1], t, session);
      StepKeepsRows(g, t, run[|run| - 1]);
    }
  }

  /**
   * A benign run may pass through states with such a sidecar, but once the session is replayed and
   * none of its chunks has unsaved points there is none.
   */
  lemma SavedSessionHasNoOrphans(g: Setting, run: seq<Step>, s: State, session: SessionId)
    requires Stable(g.voxelOf) && Reached(g, run, s) && Benign(g, START, run) && CaughtUp(s, session)
    requires forall k: Key :: k.session == session ==> !DirtyResident(s.mem, k)
    ensures NoOrphans(s, session)
  {
    RunKeepsCounters(g, START, run);
    forall k: Key | k.session == session ensures !Orphaned(s, session, k) {
      assert Hosted(s, k);
      SavedChunk(g, k, ChunkAt(s, k));
    }
  }

  lemma SavedChunk(g: Setting, k: Key, c: Chunk)
    requires ChunkOk(g, k, c) && CountersOk(g, k, c) && c.tail.fused == |c.log.records| && !Dirty(c)
    ensures c.file.Some? ==> c.row.Some?
  {
    if c.file.Some? { assert MemApplied(c) == FileApplied(c); }
  }

  // ---------------------------------------------------------------- what becomes of one

  /**
   * A sidecar without a row that holds everything the log has for its chunk comes through a rebuild
   * unchanged: the chunk keeps the voxels of the log as it was before the correction.
   */
  lemma OrphanKeepsOldVoxels(g: Setting, g': Setting, s: State, session: SessionId, k: Key)
    requires Inv(g, s) && DiffersIn(g, g', session) && Orphaned(s, session, k)
    requires s.disk.acc[k].applied == Position(s.disk.logs[session].records, |s.disk.logs[session].records|)
    ensures var log := s.disk.logs[session].records;
            && Strip(Resumed(g', k, Leftover(g', s, k), log)) == Strip(FoldAll(g, k, log).vox)
            && (Strip(FoldAll(g, k, log).vox) != Strip(FoldAll(g', k, log).vox) ==> !LeftoversMatch(g', s, session))
  {
    assert Hosted(s, k) && ChunkOk(g, k, ChunkAt(s, k));
    var log, seed := s.disk.logs[session].records, Leftover(g', s, k);
    HistoryIsFold(g, k, log, seed.applied);
    HistoryIsFold(g', k, log, seed.applied);
    ResumedPast(g', k, seed, log);
  }

  // ---------------------------------------------------------------- such a rebuild, at one input

  const STILL := Pose(Vec(0.0, 0.0, 0.0), ONE)
  const AWAY := Pose(Vec(100.0, 0.0, 0.0), ONE)

  /** One point in the first chunk, seen from the origin. */
  const SCAN := Batch(1, 1, STILL, [Point(Vec(0.5, 0.5, 0.5), 0, 0, 0, 0)])
  const HOME := Key("s", Cell(0, 0, 0))

  ghost function AsLogged(): Setting {
    Standard(1.0, 64.0, (session: SessionId, pose: Pose, chunk: Cell) => false,
             (session: SessionId, n: nat, pose: Pose) => pose)
  }

  /** The batch's pose is corrected to a place a hundred metres away, outside the chunk. */
  ghost function AsCorrected(): Setting {
    Standard(1.0, 64.0, AsLogged().inView,
             (session: SessionId, n: nat, pose: Pose) =>
               if session == "s" then Effective(Corrections([Correction(1, AWAY)], None), n, pose) else pose)
  }

  lemma WhereTheScanLands()
    ensures LandedIn(AsLogged(), HOME, SCAN) == SCAN.points && LandedIn(AsCorrected(), HOME, SCAN) == []
  {
    var g, g', p := AsLogged(), AsCorrected(), SCAN.points[0];
    assert SCAN.points == [p] && SCAN.points[..0] == [];
    assert RotateAndTranslate(STILL, p.at) == p.at;
    assert RotateAndTranslate(AWAY, p.at) == Vec(100.5, 0.5, 0.5);
    assert FirstAt([Correction(1, AWAY)], 1) == 0;
    assert g'.effective("s", 1, STILL) == AWAY;
    assert g.chunkOf(p.at) == Cell(0, 0, 0);
    assert g'.chunkOf(Vec(100.5, 0.5, 0.5)).x == 1;
  }

  /** Log the scan, fuse it, die between writing its sidecar and its row, and replay. */
  const STEPS := [Open("s"), Append("s", SCAN), Fuse("s"), CrashInPersist(HOME, true), Fuse("s")]

  lemma OneMore(g: Setting, run: seq<Step>, s: State, step: Step)
    requires Reached(g, run, s) && Legal(g, s, step)
    ensures Reached(g, run + [step], Apply(g, s, step))
  {
    assert (run + [step])[..|run|] == run;
  }

  lemma CorrectionDiffers()
    ensures DiffersIn(AsLogged(), AsCorrected(), "s")
  {
    hide Effective, RotateAndTranslate;
  }

  lemma LoggedIsStable()
    ensures Stable(AsLogged().voxelOf) && AsCorrected().voxelOf == AsLogged().voxelOf
    ensures AsLogged().voxelOf(SCAN.points[0].at) == Cell(0, 0, 0)
  {
    StandardIsStable(1.0, 64.0, AsLogged().inView, AsLogged().effective);
    assert FloorDiv(0.5, 1.0) == 0;
  }

  lemma OnePoint(voxelOf: Vec -> Cell, p: Point, o: nat)
    ensures AddPoints(voxelOf, EMPTY, [p], o).keys == [voxelOf(p.at)]
  {
    assert [p][..0] == [];
  }

  lemma OneBatch(g: Setting, k: Key, b: Batch)
    ensures FoldAll(g, k, [b]) == Observe(g, k, NOTHING, b)
  {
    var log := [b];
    assert log[..|log| - 1] == [] && FoldFrom(g, k, NOTHING, []) == NOTHING;
  }

  /** All that the steps below need to know of the geometry. */
  ghost predicate Lands(g: Setting) {
    Stable(g.voxelOf) && LandedIn(g, HOME, SCAN) == SCAN.points && g.voxelOf(SCAN.points[0].at) == Cell(0, 0, 0)
  }

  lemma LandsIsStable(g: Setting)
    requires Lands(g)
    ensures Stable(g.voxelOf)
  {
  }

  /** The chunk once the scan is fused: one voxel, unsaved. */
  lemma ScanFused(g: Setting, c: Chunk)
    requires Lands(g) && c.resident.None? && c.file.None? && c.cell.None?
    ensures var c' := FuseChunk(g, HOME, c, SCAN);
            && c'.resident.Some? && c'.cell.Some? && c'.file.None?
            && c'.resident.value.vox.keys == [Cell(0, 0, 0)] && c'.resident.value.applied == 1
  {
    hide Stable, LandedIn, AddPoints;
    OnePoint(g.voxelOf, SCAN.points[0], Count(ChunkLife.Counters(c), 1).opportunities);
    assert SCAN.points == [SCAN.points[0]];
  }

  /** The chunk's own view of one more step. */
  lemma OneMoreHere(g: Setting, run: seq<Step>, s: State, step: Step)
    requires Stable(g.voxelOf) && Reached(g, run, s) && Legal(g, s, step) && Hosted(s, HOME)
    ensures var t := Apply(g, s, step);
            && Reached(g, run + [step], t) && Inv(g, t) && Hosted(t, HOME)
            && LocalLegal(HOME, ChunkAt(s, HOME), step) && ChunkAt(t, HOME) == Local(g, HOME, ChunkAt(s, HOME), step)
  {
    OneMore(g, run, s, step);
    ReachedInv(g, run, s);
    ReachedInv(g, run + [step], Apply(g, s, step));
    hide Apply, Local, LocalLegal, Reached, ChunkOk;
    StepChangesLog(g, s, step, "s");
    StepIsLocal(g, s, step, HOME);
  }

  lemma Scanned(g: Setting) returns (s: State)
    requires Lands(g)
    ensures Reached(g, STEPS[..2], s) && Hosted(s, HOME) && ChunkAt(s, HOME) == UNBORN.(log := Log([SCAN], false, 0))
  {
    OneMore(g, [], START, STEPS[0]);
    s := Apply(g, START, STEPS[0]);
    OneMoreHere(g, [] + [STEPS[0]], s, STEPS[1]);
    s := Apply(g, s, STEPS[1]);
    assert [] + [STEPS[0]] + [STEPS[1]] == STEPS[..2];
    assert [] + [SCAN] == [SCAN];
  }

  /** What a crash between its sidecar and its row leaves of the scanned chunk. */
  ghost predicate LeftWithoutRow(g: Setting, c: Chunk, fused: nat) {
    && c.log == Log([SCAN], false, 0) && c.tail == Tail(fused, None) && c.row.None?
    && c.file.Some? && c.file.value.applied == 1 && FromFile(g, c.file).vox.keys == [Cell(0, 0, 0)]
  }

  /** Legal steps, seen from the chunk. */
  lemma LegalHere(g: Setting, s: State, c: Chunk)
    requires Hosted(s, HOME) && c == ChunkAt(s, HOME)
    ensures c.tail.fused < |c.log.records| ==> Legal(g, s, Fuse("s"))
    ensures c.resident.Some? && |c.resident.value.vox.keys| > 0 ==> Legal(g, s, CrashInPersist(HOME, true))
  {
  }

  ghost predicate HoldsScan(c: Chunk) {
    && c.log == Log([SCAN], false, 0) && c.row.None? && c.resident.Some?
    && c.resident.value.vox.keys == [Cell(0, 0, 0)] && c.resident.value.applied == 1
  }

  lemma FusedHere(g: Setting, c: Chunk)
    requires Lands(g) && c == UNBORN.(log := Log([SCAN], false, 0))
    ensures LocalLegal(HOME, c, Fuse("s")) && HoldsScan(Local(g, HOME, c, Fuse("s")))
  {
    hide Lands;
    ScanFused(g, c);
    hide FuseChunk;
  }

  lemma CrashedHere(g: Setting, c: Chunk)
    requires HoldsScan(c) && ChunkOk(g, HOME, c)
    ensures LocalLegal(HOME, c, CrashInPersist(HOME, true))
    ensures LeftWithoutRow(g, Local(g, HOME, c, CrashInPersist(HOME, true)), 0)
  {
    hide ChunkOk;
    WrittenOk(g, HOME, c);
    hide FileOk, Quiet;
  }

  lemma FusedScan(g: Setting) returns (s: State)
    requires Lands(g)
    ensures Reached(g, STEPS[..3], s) && Inv(g, s) && Hosted(s, HOME) && HoldsScan(ChunkAt(s, HOME))
  {
    hide Lands, Stable, Reached, Inv, Apply, Legal, Local, LocalLegal, HoldsScan;
    LandsIsStable(g);
    var t := Scanned(g);
    FusedHere(g, ChunkAt(t, HOME));
    LegalHere(g, t, ChunkAt(t, HOME));
    OneMoreHere(g, STEPS[..2], t, Fuse("s"));
    s := Apply(g, t, Fuse("s"));
    assert STEPS[..2] + [Fuse("s")] == STEPS[..3];
  }

  lemma Interrupted(g: Setting) returns (s: State)
    requires Lands(g)
    ensures Reached(g, STEPS[..4], s) && Hosted(s, HOME) && LeftWithoutRow(g, ChunkAt(s, HOME), 0)
  {
    hide Lands, Stable, Reached, ChunkOk, Apply, Legal, Local, LocalLegal, LeftWithoutRow;
    LandsIsStable(g);
    var t := FusedScan(g);
    CrashedHere(g, ChunkAt(t, HOME));
    LegalHere(g, t, ChunkAt(t, HOME));
    OneMoreHere(g, STEPS[..3], t, CrashInPersist(HOME, true));
    s := Apply(g, t, CrashInPersist(HOME, true));
    assert STEPS[..3] + [CrashInPersist(HOME, true)] == STEPS[..4];
  }

  lemma Replayed(g: Setting) returns (s: State)
    requires Lands(g)
    ensures Reached(g, STEPS, s) && Inv(g, s) && Hosted(s, HOME) && LeftWithoutRow(g, ChunkAt(s, HOME), 1)
  {
    var t := Interrupted(g);
    s := Apply(g, t, Fuse("s"));
    OneMoreHere(g, STEPS[..4], t, Fuse("s"));
    assert STEPS[..4] + [Fuse("s")] == STEPS;
  }

  /**
   * So the first-persist crash makes a rebuild wrong: the store below is caught up with its log, its
   * one batch is corrected away from the chunk, and re-fusing everything leaves the old voxel there.
   */
  lemma RebuildKeepsMovedBatch() returns (s: State)
    ensures Reached(AsLogged(), STEPS, s) && CaughtUp(s, "s") && s.disk.logs["s"].records == [SCAN]
    ensures Inv(AsLogged(), s) && DiffersIn(AsLogged(), AsCorrected(), "s") && Orphaned(s, "s", HOME)
    ensures FoldAll(AsCorrected(), HOME, [SCAN]).vox == EMPTY
    ensures Resumed(AsCorrected(), HOME, Leftover(AsCorrected(), s, HOME), [SCAN]).keys == [Cell(0, 0, 0)]
    ensures !LeftoversMatch(AsCorrected(), s, "s")
  {
    hide AsLogged, AsCorrected, Stable, LandedIn, DiffersIn, Inv, Leftover, LeftoversMatch, FoldFrom, Resumed, Exec;
    LoggedIsStable();
    WhereTheScanLands();
    CorrectionDiffers();
    s := Replayed(AsLogged());
    OldVoxelStays(AsLogged(), AsCorrected(), s);
  }

  lemma OldVoxelStays(g: Setting, g': Setting, s: State)
    requires Inv(g, s) && Hosted(s, HOME) && LeftWithoutRow(g, ChunkAt(s, HOME), 1)
    requires DiffersIn(g, g', "s") && LandedIn(g', HOME, SCAN) == []
    ensures Orphaned(s, "s", HOME) && FoldAll(g', HOME, [SCAN]).vox == EMPTY
    ensures Resumed(g', HOME, Leftover(g', s, HOME), [SCAN]).keys == [Cell(0, 0, 0)]
    ensures !LeftoversMatch(g', s, "s")
  {
    OrphanKeepsOldVoxels(g, g', s, "s", HOME);
    OneBatch(g', HOME, SCAN);
    assert FoldAll(g', HOME, [SCAN]).vox == EMPTY by { hide LandedIn; }
    ResumedPast(g', HOME, Leftover(g', s, HOME), [SCAN]);
  }

  // ---------------------------------------------------------------- the counters lost at the same input

  lemma ScanIsVulnerable(g: Setting, s: State)
    requires Hosted(s, HOME) && HoldsScan(ChunkAt(s, HOME))
    ensures Vulnerable(g, s, HOME) && Legal(g, s, STEPS[3]) && s.disk.logs["s"].records == [SCAN]
  {
    LegalHere(g, s, ChunkAt(s, HOME));
  }

  /**
   * The fused scan's chunk is vulnerable; after the crash an ordinary recovery, checkpoint and restart
   * leave no cell for it, though one batch was counted.
   */
  lemma CrashLosesScan() returns (s: State, after: seq<Step>)
    ensures Reached(AsLogged(), STEPS[..3], s) && "s" in s.disk.logs && s.disk.logs["s"].records == [SCAN]
    ensures Vulnerable(AsLogged(), s, HOME) && Legal(AsLogged(), s, STEPS[3])
    ensures Loses(AsLogged(), Apply(AsLogged(), s, STEPS[3]), HOME, after)
    ensures HOME !in Exec(AsLogged(), Apply(AsLogged(), s, STEPS[3]), after).value.mem.cells
    ensures FoldAll(AsLogged(), HOME, [SCAN]).opportunities > 0
  {
    LoggedIsStable();
    WhereTheScanLands();
    s := FusedScan(AsLogged());
    hide AsLogged, Legal, Vulnerable, Lands, Exec, Loses, FoldFrom;
    after := FusedScanIsLost(AsLogged(), s);
  }

  lemma FusedScanIsLost(g: Setting, s: State) returns (after: seq<Step>)
    requires Stable(g.voxelOf) && Inv(g, s) && Hosted(s, HOME) && HoldsScan(ChunkAt(s, HOME))
    ensures "s" in s.disk.logs && s.disk.logs["s"].records == [SCAN]
    ensures Vulnerable(g, s, HOME) && Legal(g, s, STEPS[3])
    ensures Loses(g, Apply(g, s, STEPS[3]), HOME, after)
    ensures HOME !in Exec(g, Apply(g, s, STEPS[3]), after).value.mem.cells
    ensures FoldAll(g, HOME, [SCAN]).opportunities > 0
  {
    ScanIsVulnerable(g, s);
    hide Stable, Legal, Apply, Vulnerable, ChunkOk, Inv, Reached, FoldFrom, Loses;
    after := FirstPersistCrashLosesCell(g, s, HOME, true);
    LostIsLoss(g, Apply(g, s, STEPS[3]), HOME, after);
  }

  lemma LostIsLoss(g: Setting, s: State, k: Key, after: seq<Step>)
    requires NoPersistCrash(after) && Exec(g, s, after).Some?
    requires var u := Exec(g, s, after).value;
             && CaughtUp(u, k.session) && k !in u.mem.cells && FoldAll(g, k, u.disk.logs[k.session].records).known
    ensures Loses(g, s, k, after)
  {
  }
}
