/** Writing chunks back and releasing them moves content between memory and disk without changing it. */
module WriteBack {
  import opened Voxels
  import opened LogHistory
  import opened StoreMachine
  import opened ChunkLife
  import opened StoreSafety

  predicate WritesBack(run: seq<Step>) {
    forall i :: 0 <= i < |run| ==> run[i].Persist? || run[i].Release?
  }

  /** A chunk whose copies agree: its sidecar loads, and a clean resident equals its sidecar. */
  ghost predicate Coherent(g: Setting, c: Chunk) {
    && (c.file.Some? ==> Load(g.voxelOf, c.file.value.records).Some? && WellKeyed(g.voxelOf, FromFile(g, c.file).vox))
    && (c.resident.Some? ==>
          && c.cell.Some? && WellKeyed(g.voxelOf, c.resident.value.vox)
          && (c.resident.value.pending == 0 ==> c.file.Some? && c.resident.value == FromFile(g, c.file))
          && (c.resident.value.pending > 0 ==> |c.resident.value.vox.keys| > 0))
    && (c.bin || c.row.Some? ==> c.file.Some?)
  }

  lemma ChunkOkIsCoherent(g: Setting, k: Key, c: Chunk)
    requires ChunkOk(g, k, c)
    ensures Coherent(g, c)
  {
  }

  /** Two states hold the same thing for a chunk, wherever they keep it. */
  ghost predicate SameContent(g: Setting, c: Chunk, c': Chunk) {
    && Resident(g, c').vox == Resident(g, c).vox
    && MemApplied(c') == MemApplied(c)
    && c'.cell.Some? == c.cell.Some?
    && Counters(c').opportunities == Counters(c).opportunities
    && Counters(c').fov == Counters(c).fov
  }

  /** Writing, releasing and checkpointing. */
  predicate Keeps(step: Step) {
    step.Persist? || step.Release? || step.FlushCell? || step.BeginSweep? || step.Pop? || step.EndSweep?
  }

  predicate AllKeep(run: seq<Step>) {
    forall i :: 0 <= i < |run| ==> Keeps(run[i])
  }

  /** How many chunk files a run writes. */
  function Writes(run: seq<Step>): nat {
    if |run| == 0 then 0 else Writes(run[..|run| - 1]) + if run[|run| - 1].Persist? then 1 else 0
  }

  lemma {:induction false} KeepOn(a: seq<Step>, b: seq<Step>)
    ensures AllKeep(a) && AllKeep(b) ==> AllKeep(a + b)
    ensures Writes(a + b) == Writes(a) + Writes(b)
    decreases |b|
  {
    if |b| == 0 {
      assert a + b == a;
    } else {
      KeepOn(a, b[..|b| - 1]);
      assert (a + b)[..|a + b| - 1] == a + b[..|b| - 1];
    }
  }

  lemma WriteStepKeepsContent(g: Setting, k: Key, c: Chunk, step: Step)
    requires Coherent(g, c) && LocalLegal(k, c, step) && Keeps(step)
    ensures Coherent(g, Local(g, k, c, step)) && SameContent(g, c, Local(g, k, c, step))
  {
    if step == Persist(k) {
      ReloadIdentity(g.voxelOf, c.resident.value.vox);
    }
  }

  /** A run of such steps leaves what the store holds for every chunk as it was. */
  lemma {:induction false} KeepsContent(g: Setting, s: State, run: seq<Step>, t: State, k: Key)
    requires Confined(s) && Leads(g, s, run, t) && AllKeep(run)
    requires Hosted(s, k) && Coherent(g, ChunkAt(s, k))
    ensures Confined(t) && Hosted(t, k) && Coherent(g, ChunkAt(t, k)) && SameContent(g, ChunkAt(s, k), ChunkAt(t, k))
    decreases |run|
  {
    if |run| > 0 {
      var u, step := Exec(g, s, run[..|run| - 1]).value, run[|run| - 1];
      assert Keeps(run[|run| - 1]);
      KeepsContent(g, s, run[..|run| - 1], u, k);
      StepKeepsConfined(g, u, step);
      StepIsLocal(g, u, step, k);
      WriteStepKeepsContent(g, k, ChunkAt(u, k), step);
    }
  }

  lemma WriteBackKeepsContent(g: Setting, s: State, run: seq<Step>, t: State, k: Key)
    requires Confined(s) && WritesBack(run) && Leads(g, s, run, t) && Hosted(s, k) && Coherent(g, ChunkAt(s, k))
    ensures Confined(t) && Hosted(t, k) && t.disk.logs == s.disk.logs && t.mem.tails == s.mem.tails
    ensures Coherent(g, ChunkAt(t, k)) && SameContent(g, ChunkAt(s, k), ChunkAt(t, k))
  {
    KeepsContent(g, s, run, t, k);
    WriteBackKeepsLogs(g, s, run, t);
  }

  lemma {:induction false} WriteBackKeepsLogs(g: Setting, s: State, run: seq<Step>, t: State)
    requires WritesBack(run) && Leads(g, s, run, t)
    ensures t.disk.logs == s.disk.logs && t.mem.tails == s.mem.tails
    decreases |run|
  {
    if |run| > 0 {
      WriteBackKeepsLogs(g, s, run[..|run| - 1], Exec(g, s, run[..|run| - 1]).value);
    }
  }

  // ---------------------------------------------------------------- counters and their rows

  /** A cell whose counters are not marked for saving has them in its row. */
  ghost predicate Saved(s: State) {
    forall k :: k in s.mem.cells ==> SavedCell(s.mem.cells[k], Find(s.disk.rows, k))
  }

  predicate SavedCell(st: Stats, row: Option<Row>) {
    st.dirty || row == Some(Row(st.opportunities, st.fov))
  }

  /** Fusing marks every cell it counts. */
  lemma FuseKeepsSaved(g: Setting, disk: Disk, mem: Mem, session: SessionId, b: Batch, restrict: Option<set<Cell>>)
    requires Saved(State(disk, mem))
    ensures Saved(State(disk, FuseMem(g, disk, mem, session, b, restrict)))
  {
    hide FuseMem;
    var m := FuseMem(g, disk, mem, session, b, restrict);
    forall k | k in m.cells ensures SavedCell(m.cells[k], Find(disk.rows, k)) {
      FusePerChunk(g, disk, mem, session, b, restrict, k);
      assert SavedCell(StatsAt(mem, k), Find(disk.rows, k));
    }
  }

  /** No step of the store, crashes included, lets a cell's row fall behind unmarked. */
  lemma StepKeepsSaved(g: Setting, s: State, step: Step)
    requires Saved(s) && Legal(g, s, step)
    ensures Saved(Apply(g, s, step))
  {
    if step.Fuse? {
      var tail := s.mem.tails[step.session];
      FuseKeepsSaved(g, s.disk, s.mem, step.session, s.disk.logs[step.session].records[tail.fused], None);
    }
    hide FuseMem, Save;
  }

  lemma {:induction false} RunKeepsSaved(g: Setting, s: State, run: seq<Step>)
    requires Saved(s) && Exec(g, s, run).Some?
    ensures Saved(Exec(g, s, run).value)
    decreases |run|
  {
    if |run| > 0 {
      RunKeepsSaved(g, s, run[..|run| - 1]);
      StepKeepsSaved(g, Exec(g, s, run[..|run| - 1]).value, run[|run| - 1]);
    }
  }

  lemma LedSaved(g: Setting, s: State, run: seq<Step>, t: State)
    requires Saved(s) && Leads(g, s, run, t)
    ensures Saved(t)
  {
    RunKeepsSaved(g, s, run);
  }
}
