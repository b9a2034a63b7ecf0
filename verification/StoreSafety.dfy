/**
 * Safety of the chunk store over every run: threshold flushes, evictions, bounded sweeps, replays
 * and crashes in any order leave each logged batch fused exactly once.
 */
module StoreSafety {
  import opened Voxels
  import opened LogHistory
  import opened StoreMachine
  import opened ChunkLife

  // ---------------------------------------------------------------- the invariant of one chunk

  function FileApplied(c: Chunk): nat {
    if c.file.Some? then c.file.value.applied else 0
  }

  function MemApplied(c: Chunk): nat {
    if c.resident.Some? then c.resident.value.applied else FileApplied(c)
  }

  /** Offsets are in order and sequences increase. */
  ghost predicate LogOk(log: Log, tail: Tail) {
    && Increasing(log.records)
    && log.checkpoint <= tail.fused <= |log.records|
    && (tail.sweep.Some? ==> log.checkpoint <= tail.sweep.value.offset <= tail.fused)
  }

  /** Voxels that are the history of the log up to `applied`, baselines aside. */
  ghost predicate Holds(g: Setting, k: Key, log: seq<Batch>, vox: VoxelMap, applied: nat) {
    && WellKeyed(g.voxelOf, vox)
    && Strip(vox) == Strip(History(g, k, log, applied).vox)
    && applied <= Position(log, |log|)
  }

  ghost predicate FileOk(g: Setting, k: Key, log: seq<Batch>, file: AccFile) {
    var loaded := Load(g.voxelOf, file.records);
    loaded.Some? && Holds(g, k, log, loaded.value, file.applied)
  }

  ghost predicate ResidentOk(g: Setting, k: Key, c: Chunk)
    requires c.resident.Some?
  {
    var a := c.resident.value;
    && c.cell.Some?
    && Holds(g, k, c.log.records, a.vox, a.applied)
    && (a.pending == 0 ==> c.file.Some? && a == FromFile(g, c.file))
    && (a.pending > 0 ==> |a.vox.keys| > 0)
  }

  /** Everything before the given record is in the chunk's sidecar. */
  ghost predicate OnDisk(g: Setting, k: Key, c: Chunk, offset: nat)
    requires offset <= |c.log.records|
  {
    Quiet(g, k, c.log.records, FileApplied(c), Position(c.log.records, offset))
  }

  ghost predicate ChunkOk(g: Setting, k: Key, c: Chunk) {
    && LogOk(c.log, c.tail)
    && (c.file.Some? ==> FileOk(g, k, c.log.records, c.file.value))
    && (c.resident.Some? ==> ResidentOk(g, k, c))
    && Quiet(g, k, c.log.records, MemApplied(c), Position(c.log.records, c.tail.fused))
    && OnDisk(g, k, c, c.log.checkpoint)
    && (c.tail.sweep.Some? ==>
          OnDisk(g, k, c, c.tail.sweep.value.offset) || (k in c.tail.sweep.value.pending && Dirty(c)))
    && (c.bin || c.row.Some? ==> c.file.Some?)
  }

  // ---------------------------------------------------------------- small facts

  lemma PositionGrows(log: seq<Batch>, a: nat, b: nat)
    requires Increasing(log) && a <= b <= |log|
    ensures Position(log, a) <= Position(log, b)
  {
  }

  /** Nothing lies strictly between a record and its predecessor. */
  lemma QuietBetween(g: Setting, k: Key, log: seq<Batch>, n: nat, a: nat)
    requires Increasing(log) && n < |log| && a < log[n].sequence
    requires Quiet(g, k, log, a, Position(log, n))
    ensures Quiet(g, k, log, a, log[n].sequence) <==> !Touches(g, k, log[n])
    ensures History(g, k, log, a).vox == History(g, k, log, Position(log, n)).vox
  {
    var p := Position(log, n);
    forall i | 0 <= i < |log| && p < log[i].sequence <= log[n].sequence
      ensures i == n
    {
    }
    if a <= p {
      QuietKeepsVoxels(g, k, log, a, p);
    } else {
      QuietKeepsVoxels(g, k, log, p, a);
    }
  }

  lemma HoldsAfterAppend(g: Setting, k: Key, log: seq<Batch>, b: Batch, vox: VoxelMap, applied: nat)
    requires Holds(g, k, log, vox, applied) && b.sequence > Position(log, |log|)
    ensures Holds(g, k, log + [b], vox, applied)
  {
    HistoryAppend(g, k, log, b, applied);
  }

  lemma QuietAfterAppend(g: Setting, k: Key, log: seq<Batch>, b: Batch, a: nat, n: nat)
    requires Increasing(log) && n <= |log| && b.sequence > Position(log, |log|)
    requires Quiet(g, k, log, a, Position(log, n))
    ensures Quiet(g, k, log + [b], a, Position(log + [b], n))
  {
    PositionGrows(log, n, |log|);
  }

  /** Fusing the next record carries a chunk's history over it. */
  lemma HoldsAfterFuse(g: Setting, k: Key, log: seq<Batch>, n: nat, vox: VoxelMap, applied: nat, o: nat)
    requires Stable(g.voxelOf) && Increasing(log) && n < |log| && applied < log[n].sequence
    requires Holds(g, k, log, vox, applied) && Quiet(g, k, log, applied, Position(log, n))
    ensures Holds(g, k, log, AddPoints(g.voxelOf, vox, LandedIn(g, k, log[n]), o), log[n].sequence)
  {
    QuietBetween(g, k, log, n, applied);
    HistoryStep(g, k, log, n);
    var before := History(g, k, log, Position(log, n));
    AddPointsStripped(g.voxelOf, vox, before.vox, LandedIn(g, k, log[n]), o,
                      Observe(g, k, before, log[n]).opportunities);
    AddPointsWellKeyed(g.voxelOf, vox, LandedIn(g, k, log[n]), o);
    PositionGrows(log, n + 1, |log|);
  }

  lemma AddPointsNonEmpty(voxelOf: Vec -> Cell, vm: VoxelMap, ps: seq<Point>, o: nat)
    requires Wf(vm) && (|vm.keys| > 0 || |ps| > 0)
    ensures |AddPoints(voxelOf, vm, ps, o).keys| > 0
  {
    AddPointsAppendOnly(voxelOf, vm, ps, o);
    if |ps| > 0 {
      var init := AddPoints(voxelOf, vm, ps[..|ps| - 1], o);
      AddPointsAppendOnly(voxelOf, vm, ps[..|ps| - 1], o);
      assert voxelOf(ps[|ps| - 1].at) in AddPoints(voxelOf, vm, ps, o).keys;
    }
  }

  lemma SeededHolds(g: Setting, k: Key, c: Chunk)
    requires ChunkOk(g, k, c)
    ensures var a := Resident(g, c); Holds(g, k, c.log.records, a.vox, a.applied) && a.applied == MemApplied(c)
  {
    if c.resident.None? && c.file.None? {
      HistoryAtZero(g, k, c.log.records);
    }
  }

  // ---------------------------------------------------------------- preservation

  /** The resident chunk after fusing holds the history up to the fused record. */
  lemma FuseKeepsResident(g: Setting, k: Key, c: Chunk)
    requires Stable(g.voxelOf) && ChunkOk(g, k, c) && c.tail.fused < |c.log.records|
    ensures var log, n := c.log.records, c.tail.fused;
            var c' := FuseChunk(g, k, c, log[n]);
            && (c'.resident.Some? ==> ResidentOk(g, k, c'))
            && Quiet(g, k, log, MemApplied(c'), log[n].sequence)
  {
    var log, n := c.log.records, c.tail.fused;
    var b, a := log[n], Resident(g, c);
    SeededHolds(g, k, c);
    if a.applied < b.sequence {
      QuietBetween(g, k, log, n, a.applied);
      if Touches(g, k, b) {
        var o := Count(Counters(c), b.sequence).opportunities;
        HoldsAfterFuse(g, k, log, n, a.vox, a.applied, o);
        AddPointsNonEmpty(g.voxelOf, a.vox, LandedIn(g, k, b), o);
        assert Quiet(g, k, log, b.sequence, b.sequence);
      }
    }
  }

  lemma FuseKeepsChunk(g: Setting, k: Key, c: Chunk)
    requires Stable(g.voxelOf) && ChunkOk(g, k, c) && c.tail.fused < |c.log.records|
    ensures ChunkOk(g, k, FuseChunk(g, k, c, c.log.records[c.tail.fused]).(tail := c.tail.(fused := c.tail.fused + 1)))
  {
    FuseKeepsResident(g, k, c);
    var f := FuseChunk(g, k, c, c.log.records[c.tail.fused]);
    var c' := f.(tail := c.tail.(fused := c.tail.fused + 1));
    assert MemApplied(c') == MemApplied(f) && FileApplied(c') == FileApplied(c);
    assert c'.resident.Some? ==> ResidentOk(g, k, c');
    assert Dirty(c) ==> Dirty(c');
  }

  /** What a persist writes is what the resident chunk holds, and covers every offset already fused. */
  lemma WrittenOk(g: Setting, k: Key, c: Chunk)
    requires ChunkOk(g, k, c) && c.resident.Some?
    ensures FileOk(g, k, c.log.records, Written(c.resident.value))
    ensures FromFile(g, Some(Written(c.resident.value))) == c.resident.value.(pending := 0)
    ensures forall offset: nat :: offset <= c.tail.fused ==>
              Quiet(g, k, c.log.records, c.resident.value.applied, Position(c.log.records, offset))
  {
    ReloadIdentity(g.voxelOf, c.resident.value.vox);
    forall offset: nat | offset <= c.tail.fused
      ensures Position(c.log.records, offset) <= Position(c.log.records, c.tail.fused)
    {
      PositionGrows(c.log.records, offset, c.tail.fused);
    }
  }

  lemma PersistKeepsChunk(g: Setting, k: Key, c: Chunk)
    requires ChunkOk(g, k, c) && c.resident.Some?
    ensures ChunkOk(g, k, PersistOne(c))
  {
    WrittenOk(g, k, c);
  }

  lemma AppendKeepsHeld(g: Setting, k: Key, c: Chunk, b: Batch)
    requires ChunkOk(g, k, c) && LocalLegal(k, c, Append(k.session, b))
    ensures var log := c.log.records + [b];
            && (c.file.Some? ==> FileOk(g, k, log, c.file.value))
            && (c.resident.Some? ==> Holds(g, k, log, c.resident.value.vox, c.resident.value.applied))
  {
    var log := c.log.records;
    if c.file.Some? {
      HoldsAfterAppend(g, k, log, b, Load(g.voxelOf, c.file.value.records).value, c.file.value.applied);
    }
    if c.resident.Some? {
      HoldsAfterAppend(g, k, log, b, c.resident.value.vox, c.resident.value.applied);
    }
  }

  lemma AppendKeepsIncreasing(log: seq<Batch>, b: Batch)
    requires Increasing(log) && b.sequence > Position(log, |log|)
    ensures Increasing(log + [b])
  {
    forall i | 0 <= i < |log| ensures log[i].sequence < b.sequence { PositionGrows(log, i + 1, |log|); }
  }

  lemma AppendKeepsChunk(g: Setting, k: Key, c: Chunk, b: Batch)
    requires ChunkOk(g, k, c) && LocalLegal(k, c, Append(k.session, b))
    ensures ChunkOk(g, k, Local(g, k, c, Append(k.session, b)))
  {
    var log := c.log.records;
    AppendKeepsHeld(g, k, c, b);
    AppendKeepsIncreasing(log, b);
    QuietAfterAppend(g, k, log, b, MemApplied(c), c.tail.fused);
    QuietAfterAppend(g, k, log, b, FileApplied(c), c.log.checkpoint);
    if c.tail.sweep.Some? && OnDisk(g, k, c, c.tail.sweep.value.offset) {
      QuietAfterAppend(g, k, log, b, FileApplied(c), c.tail.sweep.value.offset);
    }
    hide Quiet, Holds, Increasing, Position;
  }

  /** A crash loses the cache; what the checkpoint promises about the disk is what replay starts from. */
  lemma RestartKeepsChunk(g: Setting, k: Key, c: Chunk)
    requires LogOk(c.log, c.tail) && OnDisk(g, k, c, c.log.checkpoint)
    requires c.file.Some? ==> FileOk(g, k, c.log.records, c.file.value)
    requires c.bin || c.row.Some? ==> c.file.Some?
    ensures ChunkOk(g, k, RestartChunk(c))
  {
  }

  /** Sweep bookkeeping, row updates and releases do not touch what the files hold. */
  lemma QuietStepKeepsChunk(g: Setting, k: Key, c: Chunk, step: Step)
    requires ChunkOk(g, k, c) && LocalLegal(k, c, step)
    requires step.Open? || step.Release? || step.FlushCell? || step.BeginSweep? || step.Pop? || step.EndSweep?
             || step.Truncate?
    ensures ChunkOk(g, k, Local(g, k, c, step))
  {
    var c' := Local(g, k, c, step);
    assert c'.file == c.file && c'.log.records == c.log.records && c'.tail.fused == c.tail.fused;
    assert MemApplied(c') == MemApplied(c);
    assert c'.resident.Some? ==> c'.resident == c.resident;
  }

  lemma CrashKeepsChunk(g: Setting, k: Key, c: Chunk, step: Step)
    requires ChunkOk(g, k, c) && LocalLegal(k, c, step)
    requires step.Crash? || step.TearAppend? || step.CrashInPersist?
    ensures ChunkOk(g, k, Local(g, k, c, step))
  {
    match step {
      case Crash => RestartKeepsChunk(g, k, c);
      case TearAppend(session) =>
        RestartKeepsChunk(g, k, if session == k.session then c.(log := c.log.(torn := true)) else c);
      case CrashInPersist(p, wroteBin) =>
        if p == k { WrittenOk(g, k, c); }
        RestartKeepsChunk(g, k, if p == k then c.(file := Some(Written(c.resident.value)), bin := c.bin || wroteBin)
                          else c);
    }
  }

  lemma StepKeepsChunk(g: Setting, k: Key, c: Chunk, step: Step)
    requires Stable(g.voxelOf) && ChunkOk(g, k, c) && LocalLegal(k, c, step)
    ensures ChunkOk(g, k, Local(g, k, c, step))
  {
    match step {
      case Append(session, b) => if session == k.session { AppendKeepsChunk(g, k, c, b); }
      case Fuse(session) => if session == k.session { FuseKeepsChunk(g, k, c); }
      case Persist(p) => if p == k { PersistKeepsChunk(g, k, c); }
      case Crash => CrashKeepsChunk(g, k, c, step);
      case TearAppend(_) => CrashKeepsChunk(g, k, c, step);
      case CrashInPersist(_, _) => CrashKeepsChunk(g, k, c, step);
      case _ => QuietStepKeepsChunk(g, k, c, step);
    }
  }

  // ---------------------------------------------------------------- the store

  ghost predicate Inv(g: Setting, s: State) {
    && Confined(s)
    && (forall k: Key :: Hosted(s, k) ==> ChunkOk(g, k, ChunkAt(s, k)))
  }

  lemma StepKeepsInv(g: Setting, s: State, step: Step)
    requires Stable(g.voxelOf) && Inv(g, s) && Legal(g, s, step)
    ensures Inv(g, Apply(g, s, step))
  {
    var t := Apply(g, s, step);
    StepKeepsConfined(g, s, step);
    forall k: Key | Hosted(t, k)
      ensures ChunkOk(g, k, ChunkAt(t, k))
    {
      StepIsLocal(g, s, step, k);
      if Hosted(s, k) {
        StepKeepsChunk(g, k, ChunkAt(s, k), step);
      }
    }
  }

  lemma {:induction false} RunKeepsInv(g: Setting, s: State, run: seq<Step>)
    requires Stable(g.voxelOf) && Inv(g, s) && Exec(g, s, run).Some?
    ensures Inv(g, Exec(g, s, run).value)
    decreases |run|
  {
    if |run| > 0 {
      RunKeepsInv(g, s, run[..|run| - 1]);
      StepKeepsInv(g, Exec(g, s, run[..|run| - 1]).value, run[|run| - 1]);
    }
  }

  lemma LedInv(g: Setting, s: State, run: seq<Step>, t: State)
    requires Stable(g.voxelOf) && Inv(g, s) && Leads(g, s, run, t)
    ensures Inv(g, t)
  {
    RunKeepsInv(g, s, run);
  }
}
