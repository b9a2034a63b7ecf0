/**
 * Observation counters across crashes: a cell's opportunities and each voxel's baseline come back
 * exactly, unless a crash falls inside the first persist of a chunk that no later record touches.
 */
module Counters {
  import opened Voxels
  import opened LogHistory
  import opened StoreMachine
  import opened ChunkLife
  import opened StoreSafety
  import opened Recovery

  // ---------------------------------------------------------------- the invariant of one chunk

  ghost function At(g: Setting, k: Key, c: Chunk, sequence: nat): Content {
    History(g, k, c.log.records, sequence)
  }

  function FilePosition(c: Chunk): nat {
    Position(c.log.records, |c.log.records|)
  }

  /** Counters that are the history up to the last counted sequence; only existing chunks are counted. */
  ghost predicate Counted(g: Setting, k: Key, c: Chunk, opportunities: nat, fov: nat) {
    && opportunities == At(g, k, c, fov).opportunities
    && At(g, k, c, fov).known
    && fov <= FilePosition(c)
  }

  /** The row has counted every record before the offset. */
  ghost predicate RowCovers(g: Setting, k: Key, c: Chunk, offset: nat)
    requires offset <= |c.log.records|
  {
    var p := Position(c.log.records, offset);
    if c.row.None? then !At(g, k, c, p).known
    else c.row.value.fov < p ==> At(g, k, c, p).opportunities == c.row.value.opportunities
  }

  ghost predicate RowOk(g: Setting, k: Key, c: Chunk)
    requires c.row.Some?
  {
    && Counted(g, k, c, c.row.value.opportunities, c.row.value.fov)
    && Quiet(g, k, c.log.records, FileApplied(c), c.row.value.fov)
    && c.cell.Some? && c.row.value.fov <= c.cell.value.fov
  }

  ghost predicate CellOk(g: Setting, k: Key, c: Chunk)
    requires c.cell.Some? && c.tail.fused <= |c.log.records|
  {
    var st, p := c.cell.value, Position(c.log.records, c.tail.fused);
    && Counted(g, k, c, st.opportunities, st.fov)
    && (st.fov < p ==> At(g, k, c, p).opportunities == st.opportunities)
    && Quiet(g, k, c.log.records, MemApplied(c), st.fov)
    && (!st.dirty ==> c.row == Some(Row(st.opportunities, st.fov)))
  }

  /** No logged record past the given sequence touches the chunk: a sidecar written there is final. */
  ghost predicate Complete(g: Setting, k: Key, log: seq<Batch>, applied: nat) {
    Quiet(g, k, log, applied, Position(log, |log|))
  }

  ghost predicate CountersOk(g: Setting, k: Key, c: Chunk)
    requires ChunkOk(g, k, c)
  {
    && (c.file.Some? ==> Load(g.voxelOf, c.file.value.records).value == At(g, k, c, c.file.value.applied).vox)
    && (c.resident.Some? ==> c.resident.value.vox == At(g, k, c, c.resident.value.applied).vox)
    && (c.file.Some? && c.row.None? ==> !Complete(g, k, c.log.records, FileApplied(c)))
    && (c.row.Some? ==> RowOk(g, k, c))
    && (c.cell.Some? ==> CellOk(g, k, c))
    && (c.cell.None? ==> !At(g, k, c, Position(c.log.records, c.tail.fused)).known)
    && RowCovers(g, k, c, c.log.checkpoint)
    && (c.tail.sweep.Some? ==>
          RowCovers(g, k, c, c.tail.sweep.value.offset) || (k in c.tail.sweep.value.pending && Dirty(c)))
  }

  // ---------------------------------------------------------------- small facts

  lemma {:induction false} UnknownIsNothing(g: Setting, k: Key, log: seq<Batch>, upTo: nat)
    requires !History(g, k, log, upTo).known
    ensures History(g, k, log, upTo) == NOTHING
    decreases |log|
  {
    if |log| > 0 {
      UnknownIsNothing(g, k, log[..|log| - 1], upTo);
    }
  }

  /** Counters that cover a later position cover every earlier one. */
  lemma CoversEarlier(g: Setting, k: Key, log: seq<Batch>, fov: nat, opportunities: nat, a: nat, b: nat)
    requires Increasing(log) && a <= b
    requires opportunities == History(g, k, log, fov).opportunities
    requires fov < b ==> History(g, k, log, b).opportunities == opportunities
    ensures fov < a ==> History(g, k, log, a).opportunities == opportunities
  {
    if fov < a {
      HistoryGrows(g, k, log, fov, a);
      HistoryGrows(g, k, log, a, b);
    }
  }

  /** A sequence in the gap before record n cuts the history at the same place as record n-1 does. */
  lemma SameCut(g: Setting, k: Key, log: seq<Batch>, n: nat, a: nat)
    requires Increasing(log) && n < |log| && Position(log, n) <= a < log[n].sequence
    ensures History(g, k, log, a) == History(g, k, log, Position(log, n))
  {
    HistoryPrefix(g, k, log, n, a);
    HistoryPrefix(g, k, log, n, Position(log, n));
    HistoryIsFold(g, k, log[..n], a);
    HistoryIsFold(g, k, log[..n], Position(log, n));
  }

  // ---------------------------------------------------------------- fusing

  /** Counting the next record keeps the cell in step with the history. */
  lemma FuseKeepsCell(g: Setting, k: Key, c: Chunk)
    requires ChunkOk(g, k, c) && CountersOk(g, k, c) && c.tail.fused < |c.log.records|
    ensures var b := c.log.records[c.tail.fused];
            var st := FuseChunk(g, k, c, b).cell;
            && (st.None? ==> !At(g, k, c, b.sequence).known)
            && (st.Some? ==>
                 && Counted(g, k, c, st.value.opportunities, st.value.fov)
                 && (st.value.fov <= b.sequence ==> At(g, k, c, b.sequence).opportunities == st.value.opportunities)
                 && (Touches(g, k, b) ==> b.sequence <= st.value.fov))
  {
    hide FileOk, ResidentOk, OnDisk, Quiet, Load;
    var log, n := c.log.records, c.tail.fused;
    var b, p := log[n], Position(log, n);
    HistoryStep(g, k, log, n);
    PositionGrows(log, n + 1, |log|);
    if c.cell.None? {
      UnknownIsNothing(g, k, log, p);
    } else {
      var st := c.cell.value;
      if st.fov < b.sequence {
        if st.fov <= p {
          HistoryGrows(g, k, log, st.fov, p);
        } else {
          SameCut(g, k, log, n, st.fov);
        }
        assert At(g, k, c, p).known && At(g, k, c, p).opportunities == st.opportunities;
      }
    }
  }

  /** A chunk that accepts a batch has not counted it before, so new voxels get the right baseline. */
  lemma FuseKeepsBaselines(g: Setting, k: Key, c: Chunk)
    requires Stable(g.voxelOf) && ChunkOk(g, k, c) && CountersOk(g, k, c) && c.tail.fused < |c.log.records|
    ensures var c' := FuseChunk(g, k, c, c.log.records[c.tail.fused]);
            c'.resident.Some? ==> c'.resident.value.vox == At(g, k, c, c'.resident.value.applied).vox
  {
    var log, n := c.log.records, c.tail.fused;
    var b, a := log[n], Resident(g, c);
    SeededHolds(g, k, c);
    if c.resident.None? && c.file.None? { HistoryAtZero(g, k, log); }
    assert a.vox == At(g, k, c, a.applied).vox;
    if Touches(g, k, b) && a.applied < b.sequence {
      FuseKeepsCell(g, k, c);
      QuietBetween(g, k, log, n, a.applied);
      HistoryStep(g, k, log, n);
      assert c.cell.Some? ==> c.cell.value.fov < b.sequence;
    }
  }

  lemma FuseKeepsQuietCounters(g: Setting, k: Key, c: Chunk)
    requires Stable(g.voxelOf) && ChunkOk(g, k, c) && CountersOk(g, k, c) && c.tail.fused < |c.log.records|
    ensures var c' := FuseChunk(g, k, c, c.log.records[c.tail.fused]);
            c'.cell.Some? ==> Quiet(g, k, c.log.records, MemApplied(c'), c'.cell.value.fov)
  {
    var log, n := c.log.records, c.tail.fused;
    var b, a := log[n], Resident(g, c);
    SeededHolds(g, k, c);
    FuseKeepsResident(g, k, c);
    var c' := FuseChunk(g, k, c, b);
    if c'.cell.Some? && c'.cell.value.fov != b.sequence {
      assert c.cell.Some? && c'.cell.value.fov == c.cell.value.fov;
      assert MemApplied(c) <= MemApplied(c');
    }
  }

  lemma FuseKeepsCounters(g: Setting, k: Key, c: Chunk)
    requires Stable(g.voxelOf) && ChunkOk(g, k, c) && CountersOk(g, k, c) && c.tail.fused < |c.log.records|
    ensures var c' := FuseChunk(g, k, c, c.log.records[c.tail.fused]).(tail := c.tail.(fused := c.tail.fused + 1));
            ChunkOk(g, k, c') && CountersOk(g, k, c')
  {
    hide Complete, Quiet, History, Load, Save, Touches, InView, ResidentOk, FileOk, OnDisk;
    FuseKeepsChunk(g, k, c);
    FuseKeepsCell(g, k, c);
    FuseKeepsBaselines(g, k, c);
    FuseKeepsQuietCounters(g, k, c);
    var b := c.log.records[c.tail.fused];
    var f := FuseChunk(g, k, c, b);
    var c' := f.(tail := c.tail.(fused := c.tail.fused + 1));
    assert Position(c.log.records, c'.tail.fused) == b.sequence;
    assert MemApplied(c') == MemApplied(f) && FileApplied(c') == FileApplied(c);
    assert Dirty(c) ==> Dirty(c');
    assert c'.cell.Some? ==> CellOk(g, k, c');
    assert c'.row.Some? ==> RowOk(g, k, c');
    assert RowCovers(g, k, c', c'.log.checkpoint) == RowCovers(g, k, c, c.log.checkpoint);
  }

  // ---------------------------------------------------------------- the other steps

  /** A row written from the cell covers everything already fused. */
  lemma CellCovers(g: Setting, k: Key, c: Chunk, c': Chunk, offset: nat)
    requires LogOk(c.log, c.tail) && c.cell.Some? && CellOk(g, k, c) && offset <= c.tail.fused
    requires c'.log.records == c.log.records && c'.row == Some(Row(c.cell.value.opportunities, c.cell.value.fov))
    ensures RowCovers(g, k, c', offset)
  {
    PositionGrows(c.log.records, offset, c.tail.fused);
    CoversEarlier(g, k, c.log.records, c.cell.value.fov, c.cell.value.opportunities,
                  Position(c.log.records, offset), Position(c.log.records, c.tail.fused));
  }

  lemma PersistKeepsCounters(g: Setting, k: Key, c: Chunk)
    requires ChunkOk(g, k, c) && CountersOk(g, k, c) && c.resident.Some?
    ensures ChunkOk(g, k, PersistOne(c)) && CountersOk(g, k, PersistOne(c))
  {
    hide Complete, Quiet, History, Touches, OnDisk, FileOk;
    PersistKeepsChunk(g, k, c);
    var c' := PersistOne(c);
    if |c.resident.value.vox.keys| == 0 {
      assert c' == c;
    } else {
      WrittenOk(g, k, c);
      CellCovers(g, k, c, c', c.log.checkpoint);
      if c.tail.sweep.Some? { CellCovers(g, k, c, c', c.tail.sweep.value.offset); }
      assert c'.log == c.log && MemApplied(c') == MemApplied(c) && FileApplied(c') == MemApplied(c);
      assert c'.resident.value.vox == c.resident.value.vox;
      assert Load(g.voxelOf, c'.file.value.records).value == c.resident.value.vox;
      assert CellOk(g, k, c') && RowOk(g, k, c');
    }
  }

  lemma FlushKeepsCounters(g: Setting, k: Key, c: Chunk)
    requires ChunkOk(g, k, c) && CountersOk(g, k, c) && LocalLegal(k, c, FlushCell(k))
    ensures var c' := Local(g, k, c, FlushCell(k)); ChunkOk(g, k, c') && CountersOk(g, k, c')
  {
    var c' := Local(g, k, c, FlushCell(k));
    QuietStepKeepsChunk(g, k, c, FlushCell(k));
    CellCovers(g, k, c, c', c.log.checkpoint);
    if c.tail.sweep.Some? { CellCovers(g, k, c, c', c.tail.sweep.value.offset); }
  }

  lemma StillIncomplete(g: Setting, k: Key, log: seq<Batch>, b: Batch, applied: nat)
    requires Increasing(log) && b.sequence > Position(log, |log|)
    ensures Complete(g, k, log + [b], applied) ==> Complete(g, k, log, applied)
  {
    forall i | 0 <= i < |log| ensures (log + [b])[i] == log[i] {}
  }

  lemma AppendKeepsCounters(g: Setting, k: Key, c: Chunk, b: Batch)
    requires ChunkOk(g, k, c) && CountersOk(g, k, c) && LocalLegal(k, c, Append(k.session, b))
    ensures var c' := Local(g, k, c, Append(k.session, b)); ChunkOk(g, k, c') && CountersOk(g, k, c')
  {
    hide Complete, History, Touches;
    var c' := Local(g, k, c, Append(k.session, b));
    AppendKeepsChunk(g, k, c, b);
    var log := c.log.records;
    StillIncomplete(g, k, log, b, FileApplied(c));
    forall a: nat | a <= FilePosition(c)
      ensures At(g, k, c', a) == At(g, k, c, a)
    {
      HistoryAppend(g, k, log, b, a);
    }
    forall n: nat | n <= |log|
      ensures Position(log + [b], n) == Position(log, n) <= FilePosition(c)
    {
      PositionGrows(log, n, |log|);
    }
    forall a: nat, upTo: nat | upTo <= FilePosition(c) && Quiet(g, k, log, a, upTo)
      ensures Quiet(g, k, log + [b], a, upTo)
    {
    }
    assert c.cell.Some? ==> CellOk(g, k, c');
    assert c.row.Some? ==> RowOk(g, k, c');
  }

  /** When a sweep begins, the row of a chunk that is not dirty has counted the whole log. */
  lemma CleanIsCovered(g: Setting, k: Key, c: Chunk, dirty: seq<Key>)
    requires ChunkOk(g, k, c) && CountersOk(g, k, c) && LocalLegal(k, c, BeginSweep(k.session, dirty)) && !Dirty(c)
    ensures RowCovers(g, k, c, |c.log.records|)
  {
    if c.cell.Some? && c.row.None? {
      KnownIffTouched(g, k, c.log.records, c.cell.value.fov);
    }
  }

  lemma BeginSweepKeepsCounters(g: Setting, k: Key, c: Chunk, dirty: seq<Key>)
    requires ChunkOk(g, k, c) && CountersOk(g, k, c) && LocalLegal(k, c, BeginSweep(k.session, dirty))
    ensures var c' := Local(g, k, c, BeginSweep(k.session, dirty)); ChunkOk(g, k, c') && CountersOk(g, k, c')
  {
    hide Quiet, History, FileOk, ResidentOk, OnDisk, Load, Complete;
    QuietStepKeepsChunk(g, k, c, BeginSweep(k.session, dirty));
    if !Dirty(c) { CleanIsCovered(g, k, c, dirty); }
    var c' := Local(g, k, c, BeginSweep(k.session, dirty));
    assert c' == c.(tail := c'.tail) && c'.tail.fused == c.tail.fused;
  }

  lemma RestartKeepsCounters(g: Setting, k: Key, c: Chunk)
    requires ChunkOk(g, k, RestartChunk(c))
    requires c.file.Some? ==> Load(g.voxelOf, c.file.value.records).value == At(g, k, c, c.file.value.applied).vox
    requires c.file.Some? && c.row.None? ==> !Complete(g, k, c.log.records, FileApplied(c))
    requires c.row.Some? ==> Counted(g, k, c, c.row.value.opportunities, c.row.value.fov)
                             && Quiet(g, k, c.log.records, FileApplied(c), c.row.value.fov)
    requires c.log.checkpoint <= |c.log.records| && RowCovers(g, k, c, c.log.checkpoint)
    ensures CountersOk(g, k, RestartChunk(c))
  {
  }

  /**
   * A crash spares a chunk's counters unless it interrupts the persist that would create its row and
   * no later record will make the chunk dirty again when the log is replayed.
   */
  ghost predicate Spared(g: Setting, k: Key, c: Chunk, step: Step) {
    step.CrashInPersist? && step.key == k && c.resident.Some? ==>
      c.row.Some? || !Complete(g, k, c.log.records, c.resident.value.applied)
  }

  lemma PlainCrashKeepsCounters(g: Setting, k: Key, c: Chunk)
    requires ChunkOk(g, k, c) && CountersOk(g, k, c)
    ensures ChunkOk(g, k, RestartChunk(c)) && CountersOk(g, k, RestartChunk(c))
  {
    hide Complete;
    RestartKeepsChunk(g, k, c);
    RestartKeepsCounters(g, k, c);
  }

  lemma TornCrashKeepsCounters(g: Setting, k: Key, c: Chunk)
    requires ChunkOk(g, k, c) && CountersOk(g, k, c)
    ensures var c' := RestartChunk(c.(log := c.log.(torn := true))); ChunkOk(g, k, c') && CountersOk(g, k, c')
  {
    hide Complete;
    var torn := c.(log := c.log.(torn := true));
    RestartKeepsChunk(g, k, torn);
    RestartKeepsCounters(g, k, torn);
  }

  lemma PersistCrashKeepsCounters(g: Setting, k: Key, c: Chunk, wroteBin: bool)
    requires ChunkOk(g, k, c) && CountersOk(g, k, c) && LocalLegal(k, c, CrashInPersist(k, wroteBin))
    requires Spared(g, k, c, CrashInPersist(k, wroteBin))
    ensures var c' := RestartChunk(c.(file := Some(Written(c.resident.value)), bin := c.bin || wroteBin));
            ChunkOk(g, k, c') && CountersOk(g, k, c')
  {
    hide Complete;
    WrittenOk(g, k, c);
    var half := c.(file := Some(Written(c.resident.value)), bin := c.bin || wroteBin);
    RestartKeepsChunk(g, k, half);
    RestartKeepsCounters(g, k, half);
  }

  lemma CrashKeepsCounters(g: Setting, k: Key, c: Chunk, step: Step)
    requires ChunkOk(g, k, c) && CountersOk(g, k, c) && LocalLegal(k, c, step) && IsCrash(step) && Spared(g, k, c, step)
    ensures var c' := Local(g, k, c, step); ChunkOk(g, k, c') && CountersOk(g, k, c')
  {
    CrashKeepsChunk(g, k, c, step);
    hide ChunkOk, CountersOk, RestartChunk, Spared;
    match step {
      case Crash => PlainCrashKeepsCounters(g, k, c);
      case TearAppend(session) =>
        if session == k.session { TornCrashKeepsCounters(g, k, c); } else { PlainCrashKeepsCounters(g, k, c); }
      case CrashInPersist(p, wroteBin) =>
        if p == k { PersistCrashKeepsCounters(g, k, c, wroteBin); } else { PlainCrashKeepsCounters(g, k, c); }
    }
  }

  /** Counters depend only on the files, the row, the cell and what the chunk holds. */
  lemma SameCounters(g: Setting, k: Key, c: Chunk, c': Chunk)
    requires ChunkOk(g, k, c) && CountersOk(g, k, c) && ChunkOk(g, k, c')
    requires c'.file == c.file && c'.row == c.row && c'.cell == c.cell
    requires c'.log.records == c.log.records && c'.tail.fused == c.tail.fused
    requires MemApplied(c') == MemApplied(c) && (c'.resident.Some? ==> c'.resident == c.resident)
    requires RowCovers(g, k, c', c'.log.checkpoint)
    requires c'.tail.sweep.Some? ==>
      RowCovers(g, k, c', c'.tail.sweep.value.offset) || (k in c'.tail.sweep.value.pending && Dirty(c'))
    ensures CountersOk(g, k, c')
  {
    assert c.cell.Some? ==> CellOk(g, k, c');
    assert c.row.Some? ==> RowOk(g, k, c');
  }

  lemma SameRowCovers(g: Setting, k: Key, c: Chunk, c': Chunk, offset: nat)
    requires c'.row == c.row && c'.log.records == c.log.records && offset <= |c.log.records|
    ensures RowCovers(g, k, c', offset) == RowCovers(g, k, c, offset)
  {
  }

  lemma ReleaseKeepsCounters(g: Setting, k: Key, c: Chunk)
    requires ChunkOk(g, k, c) && CountersOk(g, k, c) && LocalLegal(k, c, Release(k))
    ensures var c' := Local(g, k, c, Release(k)); ChunkOk(g, k, c') && CountersOk(g, k, c')
  {
    QuietStepKeepsChunk(g, k, c, Release(k));
    var c' := Local(g, k, c, Release(k));
    assert MemApplied(c') == MemApplied(c);
    SameCounters(g, k, c, c');
  }

  lemma PopKeepsCounters(g: Setting, k: Key, c: Chunk)
    requires ChunkOk(g, k, c) && CountersOk(g, k, c) && LocalLegal(k, c, Pop(k.session))
    ensures var c' := Local(g, k, c, Pop(k.session)); ChunkOk(g, k, c') && CountersOk(g, k, c')
  {
    QuietStepKeepsChunk(g, k, c, Pop(k.session));
    var c' := Local(g, k, c, Pop(k.session));
    SameRowCovers(g, k, c, c', c.tail.sweep.value.offset);
    SameCounters(g, k, c, c');
  }

  lemma EndSweepKeepsCounters(g: Setting, k: Key, c: Chunk)
    requires ChunkOk(g, k, c) && CountersOk(g, k, c) && LocalLegal(k, c, EndSweep(k.session))
    ensures var c' := Local(g, k, c, EndSweep(k.session)); ChunkOk(g, k, c') && CountersOk(g, k, c')
  {
    QuietStepKeepsChunk(g, k, c, EndSweep(k.session));
    var c' := Local(g, k, c, EndSweep(k.session));
    SameRowCovers(g, k, c, c', c.tail.sweep.value.offset);
    SameCounters(g, k, c, c');
  }

  lemma TruncateKeepsCounters(g: Setting, k: Key, c: Chunk)
    requires ChunkOk(g, k, c) && CountersOk(g, k, c) && LocalLegal(k, c, Truncate(k.session))
    ensures var c' := Local(g, k, c, Truncate(k.session)); ChunkOk(g, k, c') && CountersOk(g, k, c')
  {
    QuietStepKeepsChunk(g, k, c, Truncate(k.session));
    var c' := Local(g, k, c, Truncate(k.session));
    SameCounters(g, k, c, c');
  }

  lemma StepKeepsCounters(g: Setting, k: Key, c: Chunk, step: Step)
    requires Stable(g.voxelOf) && ChunkOk(g, k, c) && CountersOk(g, k, c) && LocalLegal(k, c, step)
             && Spared(g, k, c, step)
    ensures var c' := Local(g, k, c, step); ChunkOk(g, k, c') && CountersOk(g, k, c')
  {
    hide ChunkOk, CountersOk, FuseChunk, PersistOne, RestartChunk, Quiet;
    match step {
      case Append(session, b) => if session == k.session { AppendKeepsCounters(g, k, c, b); }
      case Fuse(session) => if session == k.session { FuseKeepsCounters(g, k, c); }
      case Persist(p) => if p == k { PersistKeepsCounters(g, k, c); }
      case FlushCell(p) => if p == k { FlushKeepsCounters(g, k, c); }
      case BeginSweep(session, dirty) => if session == k.session { BeginSweepKeepsCounters(g, k, c, dirty); }
      case Crash => CrashKeepsCounters(g, k, c, step);
      case TearAppend(_) => CrashKeepsCounters(g, k, c, step);
      case CrashInPersist(_, _) => CrashKeepsCounters(g, k, c, step);
      case Release(p) => if p == k { ReleaseKeepsCounters(g, k, c); }
      case Pop(session) => if session == k.session { PopKeepsCounters(g, k, c); }
      case EndSweep(session) => if session == k.session { EndSweepKeepsCounters(g, k, c); }
      case Truncate(session) => if session == k.session { TruncateKeepsCounters(g, k, c); }
      case Open(_) =>
    }
  }

  // ---------------------------------------------------------------- every run

  ghost predicate CountersInv(g: Setting, s: State) {
    Inv(g, s) && forall k: Key :: Hosted(s, k) ==> CountersOk(g, k, ChunkAt(s, k))
  }

  /** A persist of the chunk now would write all its logged records hold, and create its row. */
  ghost predicate Vulnerable(g: Setting, s: State, k: Key) {
    && k !in s.disk.rows && k in s.mem.active && k.session in s.disk.logs
    && Complete(g, k, s.disk.logs[k.session].records, s.mem.active[k].applied)
  }

  /** No crash of the run interrupts the persist of a vulnerable chunk. */
  ghost predicate Benign(g: Setting, s: State, run: seq<Step>)
    requires Exec(g, s, run).Some?
  {
    |run| == 0 ||
    (var step := run[|run| - 1];
     && Benign(g, s, run[..|run| - 1])
     && (step.CrashInPersist? ==> !Vulnerable(g, Exec(g, s, run[..|run| - 1]).value, step.key)))
  }

  lemma StepKeepsCountersInv(g: Setting, s: State, step: Step)
    requires Stable(g.voxelOf) && CountersInv(g, s) && Legal(g, s, step)
    requires step.CrashInPersist? ==> !Vulnerable(g, s, step.key)
    ensures CountersInv(g, Apply(g, s, step))
  {
    var t := Apply(g, s, step);
    StepKeepsInv(g, s, step);
    forall k: Key | Hosted(t, k)
      ensures CountersOk(g, k, ChunkAt(t, k))
    {
      StepIsLocal(g, s, step, k);
      if Hosted(s, k) {
        StepKeepsCounters(g, k, ChunkAt(s, k), step);
      }
    }
  }

  lemma {:induction false} RunKeepsCounters(g: Setting, s: State, run: seq<Step>)
    requires Stable(g.voxelOf) && CountersInv(g, s) && Exec(g, s, run).Some? && Benign(g, s, run)
    ensures CountersInv(g, Exec(g, s, run).value)
    decreases |run|
  {
    if |run| > 0 {
      RunKeepsCounters(g, s, run[..|run| - 1]);
      StepKeepsCountersInv(g, Exec(g, s, run[..|run| - 1]).value, run[|run| - 1]);
    }
  }

  /** The chunk's cell, count, voxels and baselines are those of fusing the log once. */
  ghost predicate CountedOnce(g: Setting, s: State, k: Key, log: seq<Batch>)
    requires Hosted(s, k)
  {
    var full := FoldAll(g, k, log);
    && (k in s.mem.cells <==> full.known)
    && (k in s.mem.cells ==> s.mem.cells[k].opportunities == full.opportunities)
    && Resident(g, ChunkAt(s, k)).vox == full.vox
  }

  /**
   * After any benign run from any state whose counters are in order, a session replayed to the end of
   * its log has exactly the cells, the opportunity counts and the voxels, baselines included, that
   * fusing the log once without interruption would give.
   */
  lemma CountersStayExact(g: Setting, s: State, run: seq<Step>, t: State, k: Key)
    requires Stable(g.voxelOf) && CountersInv(g, s) && Exec(g, s, run) == Some(t) && Benign(g, s, run)
    requires Hosted(t, k) && CaughtUp(t, k.session)
    ensures CountedOnce(g, t, k, t.disk.logs[k.session].records)
  {
    RunKeepsCounters(g, s, run);
    CaughtUpCounters(g, k, ChunkAt(t, k));
  }

  /** In particular after any benign run of a store that started empty. */
  lemma CountersAreExact(g: Setting, run: seq<Step>, s: State, k: Key)
    requires Stable(g.voxelOf) && Reached(g, run, s) && Benign(g, START, run)
    requires Hosted(s, k) && CaughtUp(s, k.session)
    ensures CountedOnce(g, s, k, Appended(run, k.session))
  {
    CountersStayExact(g, START, run, s, k);
    LogIsWhatWasAppended(g, run, s, k.session);
  }

  lemma CaughtUpCounters(g: Setting, k: Key, c: Chunk)
    requires ChunkOk(g, k, c) && CountersOk(g, k, c) && c.tail.fused == |c.log.records|
    ensures var full := FoldAll(g, k, c.log.records);
            && c.cell.Some? == full.known
            && (c.cell.Some? ==> c.cell.value.opportunities == full.opportunities)
            && Resident(g, c).vox == full.vox
  {
    var log, p := c.log.records, FilePosition(c);
    HistoryIsFold(g, k, log, p);
    SeededHolds(g, k, c);
    if c.resident.None? && c.file.None? { HistoryAtZero(g, k, log); }
    QuietKeepsVoxels(g, k, log, MemApplied(c), p);
    if c.cell.Some? {
      HistoryGrows(g, k, log, c.cell.value.fov, p);
    }
  }

  /** Without a crash, a chunk whose counters are right keeps them right, whatever the state of the others. */
  lemma {:induction false} LeadsKeepsCounters(g: Setting, s: State, run: seq<Step>, t: State, k: Key)
    requires Stable(g.voxelOf) && Confined(s) && Leads(g, s, run, t) && Hosted(s, k)
    requires ChunkOk(g, k, ChunkAt(s, k)) && CountersOk(g, k, ChunkAt(s, k))
    ensures Confined(t) && Hosted(t, k) && ChunkOk(g, k, ChunkAt(t, k)) && CountersOk(g, k, ChunkAt(t, k))
    decreases |run|
  {
    if |run| > 0 {
      var u, step := Exec(g, s, run[..|run| - 1]).value, run[|run| - 1];
      assert !IsCrash(run[|run| - 1]);
      LeadsKeepsCounters(g, s, run[..|run| - 1], u, k);
      StepKeepsConfined(g, u, step);
      StepIsLocal(g, u, step, k);
      StepKeepsCounters(g, k, ChunkAt(u, k), step);
    }
  }

  // ---------------------------------------------------------------- the crash that is not spared

  /** A chunk whose sidecar is complete but which has no row. */
  ghost predicate Orphan(g: Setting, k: Key, c: Chunk) {
    && c.file.Some? && c.row.None?
    && Quiet(g, k, c.log.records, FileApplied(c), FilePosition(c))
    && (c.resident.Some? ==> c.resident.value.pending == 0 && c.resident.value.applied == FileApplied(c))
  }

  /** Steps of recovery that leave an orphan an orphan. */
  predicate Passes(k: Key, step: Step) {
    step.Fuse? || step.BeginSweep? || step.EndSweep? || step.Crash? ||
    (step.Persist? && step.key != k) || (step.FlushCell? && step.key != k)
  }

  lemma StepKeepsOrphan(g: Setting, k: Key, c: Chunk, step: Step)
    requires ChunkOk(g, k, c) && Orphan(g, k, c) && LocalLegal(k, c, step) && Passes(k, step)
    ensures Orphan(g, k, Local(g, k, c, step))
  {
    if step.Fuse? && step.session == k.session {
      SeededHolds(g, k, c);
      PositionGrows(c.log.records, c.tail.fused + 1, |c.log.records|);
    }
  }

  ghost predicate Stranded(g: Setting, s: State, k: Key) {
    Inv(g, s) && Hosted(s, k) && Orphan(g, k, ChunkAt(s, k))
  }

  lemma StepKeepsStranded(g: Setting, s: State, k: Key, step: Step)
    requires Stable(g.voxelOf) && Stranded(g, s, k) && Legal(g, s, step) && Passes(k, step)
    ensures Stranded(g, Apply(g, s, step), k)
  {
    StepKeepsInv(g, s, step);
    StepIsLocal(g, s, step, k);
    StepKeepsOrphan(g, k, ChunkAt(s, k), step);
  }

  lemma {:induction false} ReplayKeepsStranded(g: Setting, s: State, k: Key, n: nat)
    requires Stable(g.voxelOf) && Stranded(g, s, k) && Exec(g, s, Replay(k.session, n)).Some?
    ensures Stranded(g, Exec(g, s, Replay(k.session, n)).value, k)
    decreases n
  {
    if n > 0 {
      assert Replay(k.session, n)[..n - 1] == Replay(k.session, n - 1);
      ReplayKeepsStranded(g, s, k, n - 1);
      StepKeepsStranded(g, Exec(g, s, Replay(k.session, n - 1)).value, k, Fuse(k.session));
    }
  }

  /** Work a checkpoint still has to do for a cell: write it, or save its counters. */
  ghost predicate Unsettled(s: State, p: Key) {
    DirtyResident(s.mem, p) || (p in s.mem.cells && s.mem.cells[p].dirty && p in s.disk.rows)
  }

  /** Writing one dirty chunk, or saving one cell's counters, settles it and leaves the others as they were. */
  lemma SettleOne(g: Setting, s: State, k: Key, p: Key) returns (step: Step)
    requires Stable(g.voxelOf) && Stranded(g, s, k) && CaughtUp(s, k.session)
    requires p.session == k.session && Unsettled(s, p)
    ensures Legal(g, s, step) && !step.CrashInPersist?
    ensures var t := Apply(g, s, step);
            && Stranded(g, t, k) && CaughtUp(t, k.session) && t.mem.tails == s.mem.tails && t.disk.logs == s.disk.logs
            && !Unsettled(t, p) && forall q: Key :: q != p && Unsettled(t, q) ==> Unsettled(s, q)
  {
    step := if DirtyResident(s.mem, p) then Persist(p) else FlushCell(p);
    assert Hosted(s, p) && ChunkOk(g, p, ChunkAt(s, p));
    assert p != k;
    StepKeepsStranded(g, s, k, step);
  }

  predicate NoPersistCrash(run: seq<Step>) {
    forall i :: 0 <= i < |run| ==> !run[i].CrashInPersist?
  }

  lemma NoPersistCrashOn(a: seq<Step>, b: seq<Step>)
    requires NoPersistCrash(a) && NoPersistCrash(b)
    ensures NoPersistCrash(a + b)
  {
  }

  lemma NoPersistCrashOne(step: Step)
    requires !step.CrashInPersist?
    ensures NoPersistCrash([]) && NoPersistCrash([step])
  {
  }

  /** A checkpoint can settle every cell of the session without touching the orphan. */
  lemma {:induction false} Settle(g: Setting, s: State, k: Key, todo: set<Key>) returns (run: seq<Step>)
    requires Stable(g.voxelOf) && Stranded(g, s, k) && CaughtUp(s, k.session) && s.mem.tails[k.session].sweep.None?
    requires forall p: Key :: p.session == k.session && Unsettled(s, p) ==> p in todo
    ensures Exec(g, s, run).Some? && NoPersistCrash(run)
    ensures var t := Exec(g, s, run).value;
            && Stranded(g, t, k) && CaughtUp(t, k.session) && t.mem.tails == s.mem.tails && t.disk.logs == s.disk.logs
            && forall p: Key :: p.session == k.session ==> !Unsettled(t, p)
    decreases |todo|
  {
    hide NoPersistCrash, Unsettled, Stranded;
    NoPersistCrashOne(Crash);
    if todo == {} {
      run := [];
      forall p: Key | p.session == k.session ensures !Unsettled(s, p) { assert p !in todo; }
    } else {
      var p :| p in todo;
      if p.session == k.session && Unsettled(s, p) {
        var step := SettleOne(g, s, k, p);
        var t := Apply(g, s, step);
        hide Apply, Legal, CaughtUp;
        var rest := Settle(g, t, k, todo - {p});
        ExecOne(g, s, step);
        ExecConcat(g, s, [step], t, rest);
        NoPersistCrashOne(step);
        NoPersistCrashOn([step], rest);
        run := [step] + rest;
      } else {
        run := Settle(g, s, k, todo - {p});
      }
    }
  }

  /** With every cell settled, an ordinary checkpoint and a restart follow. */
  lemma CheckpointAndRestart(g: Setting, s: State, k: Key) returns (run: seq<Step>)
    requires Stable(g.voxelOf) && Stranded(g, s, k) && CaughtUp(s, k.session) && s.mem.tails[k.session].sweep.None?
    requires forall p: Key :: p.session == k.session ==> !Unsettled(s, p)
    ensures Exec(g, s, run).Some? && NoPersistCrash(run)
    ensures var u := Exec(g, s, run).value;
            CaughtUp(u, k.session) && k !in u.mem.cells
                && u.disk.logs[k.session].records == s.disk.logs[k.session].records
  {
    var begin := BeginSweep(k.session, []);
    assert Legal(g, s, begin);
    var s1 := Apply(g, s, begin);
    var s2 := Apply(g, s1, EndSweep(k.session));
    ExecOne(g, s, begin);
    ExecOne(g, s1, EndSweep(k.session));
    ExecOne(g, s2, Crash);
    ExecConcat(g, s, [begin], s1, [EndSweep(k.session)]);
    ExecConcat(g, s, [begin] + [EndSweep(k.session)], s2, [Crash]);
    run := [begin] + [EndSweep(k.session)] + [Crash];
    assert Find(s2.disk.rows, k).None? by { assert ChunkAt(s, k).row.None?; }
  }

  /** Replay, an ordinary checkpoint and a restart drop the cell of a stranded chunk. */
  lemma StrandedIsLost(g: Setting, s: State, k: Key) returns (after: seq<Step>)
    requires Stable(g.voxelOf) && Stranded(g, s, k) && s.mem.tails[k.session].sweep.None?
    requires s.mem.tails[k.session].fused <= |s.disk.logs[k.session].records|
    ensures Exec(g, s, after).Some? && NoPersistCrash(after)
    ensures var u := Exec(g, s, after).value;
            && CaughtUp(u, k.session) && k !in u.mem.cells
            && u.disk.logs[k.session].records == s.disk.logs[k.session].records
  {
    hide ChunkOk, Orphan, Legal, Apply, Touches, Quiet;
    var session := k.session;
    var n := |s.disk.logs[session].records| - s.mem.tails[session].fused;
    ReplayRuns(g, s, session, n);
    ReplayKeepsStranded(g, s, k, n);
    ReplayKeepsSweep(g, s, session, n);
    var v := Exec(g, s, Replay(session, n)).value;
    var settle := Settle(g, v, k, v.mem.active.Keys + v.mem.cells.Keys);
    var w := Exec(g, v, settle).value;
    var restart := CheckpointAndRestart(g, w, k);
    ExecConcat(g, s, Replay(session, n), v, settle);
    ExecConcat(g, s, Replay(session, n) + settle, w, restart);
    after := Replay(session, n) + settle + restart;
    NoPersistCrashOn(Replay(session, n), settle);
    NoPersistCrashOn(Replay(session, n) + settle, restart);
  }

  /**
   * Whenever a crash interrupts the persist of a vulnerable chunk after its sidecar is written, an
   * ordinary recovery, checkpoint and restart can follow after which the chunk's cell, and with it
   * every opportunity counted for it, is gone.
   */
  lemma FirstPersistCrashLosesCell(g: Setting, s: State, k: Key, wroteBin: bool) returns (after: seq<Step>)
    requires Stable(g.voxelOf) && Inv(g, s) && Vulnerable(g, s, k) && Legal(g, s, CrashInPersist(k, wroteBin))
    ensures Exec(g, Apply(g, s, CrashInPersist(k, wroteBin)), after).Some? && NoPersistCrash(after)
    ensures k.session in s.disk.logs
    ensures var log := s.disk.logs[k.session].records;
            var u := Exec(g, Apply(g, s, CrashInPersist(k, wroteBin)), after).value;
            && CaughtUp(u, k.session) && k !in u.mem.cells && u.disk.logs[k.session].records == log
            && FoldAll(g, k, log).known && FoldAll(g, k, log).opportunities > 0
  {
    var crash := CrashInPersist(k, wroteBin);
    assert Hosted(s, k);
    OrphanAfterCrash(g, k, ChunkAt(s, k), wroteBin);
    StepKeepsInv(g, s, crash);
    StepIsLocal(g, s, crash, k);
    CrashRewindsToCheckpoint(g, s, crash, k.session);
    after := StrandedIsLost(g, Apply(g, s, crash), k);
  }

  /** A continuation without another such crash, after which the chunk is not as fusing the log once leaves it. */
  ghost predicate Loses(g: Setting, s: State, k: Key, after: seq<Step>) {
    && NoPersistCrash(after)
    && Exec(g, s, after).Some?
    && var u := Exec(g, s, after).value;
       Hosted(u, k) && CaughtUp(u, k.session) && !CountedOnce(g, u, k, u.disk.logs[k.session].records)
  }

  lemma {:induction false} NoPersistCrashIsBenign(g: Setting, s: State, run: seq<Step>)
    requires Exec(g, s, run).Some? && NoPersistCrash(run)
    ensures Benign(g, s, run)
    decreases |run|
  {
    if |run| > 0 {
      NoPersistCrashIsBenign(g, s, run[..|run| - 1]);
      assert !run[|run| - 1].CrashInPersist?;
    }
  }

  /**
   * Exactly then: a crash inside a persist costs a chunk its counters in some continuation if and
   * only if the chunk had no row and no later record touches it. Otherwise no continuation loses
   * anything: replaying the later record makes the chunk dirty again and its row gets written.
   */
  lemma PersistCrashLosesIffVulnerable(g: Setting, s: State, k: Key, wroteBin: bool)
    requires Stable(g.voxelOf) && CountersInv(g, s) && Legal(g, s, CrashInPersist(k, wroteBin))
    ensures (exists after: seq<Step> :: Loses(g, Apply(g, s, CrashInPersist(k, wroteBin)), k, after))
            <==> Vulnerable(g, s, k)
  {
    var t := Apply(g, s, CrashInPersist(k, wroteBin));
    if Vulnerable(g, s, k) {
      var after := FirstPersistCrashLosesCell(g, s, k, wroteBin);
      assert Loses(g, t, k, after);
    } else {
      StepKeepsCountersInv(g, s, CrashInPersist(k, wroteBin));
      forall after: seq<Step> | Exec(g, t, after).Some? && NoPersistCrash(after)
        ensures !Loses(g, t, k, after)
      {
        NoPersistCrashIsBenign(g, t, after);
        var u := Exec(g, t, after).value;
        if Hosted(u, k) && CaughtUp(u, k.session) { CountersStayExact(g, t, after, u, k); }
      }
    }
  }

  lemma OrphanAfterCrash(g: Setting, k: Key, c: Chunk, wroteBin: bool)
    requires ChunkOk(g, k, c) && LocalLegal(k, c, CrashInPersist(k, wroteBin)) && c.row.None?
    requires Complete(g, k, c.log.records, c.resident.value.applied)
    ensures Orphan(g, k, Local(g, k, c, CrashInPersist(k, wroteBin)))
    ensures FoldAll(g, k, c.log.records).known && FoldAll(g, k, c.log.records).opportunities > 0
  {
    var log, p := c.log.records, FilePosition(c);
    var a := c.resident.value;
    QuietKeepsVoxels(g, k, log, a.applied, p);
    HistoryIsFold(g, k, log, p);
    if !History(g, k, log, p).known { UnknownIsNothing(g, k, log, p); }
    assert Strip(a.vox).keys == a.vox.keys;
    KnownHasOpportunities(g, k, log);
  }

  lemma {:induction false} KnownHasOpportunities(g: Setting, k: Key, log: seq<Batch>)
    ensures FoldAll(g, k, log).known ==> FoldAll(g, k, log).opportunities > 0
    decreases |log|
  {
    if |log| > 0 {
      KnownHasOpportunities(g, k, log[..|log| - 1]);
    }
  }

  lemma {:induction false} ReplayKeepsSweep(g: Setting, s: State, session: SessionId, n: nat)
    requires session in s.mem.tails && Exec(g, s, Replay(session, n)).Some?
    ensures var t := Exec(g, s, Replay(session, n)).value;
            session in t.mem.tails && t.mem.tails[session].sweep == s.mem.tails[session].sweep
    decreases n
  {
    if n > 0 {
      assert Replay(session, n)[..n - 1] == Replay(session, n - 1);
      ReplayKeepsSweep(g, s, session, n - 1);
    }
  }
}
