/**
 * The life of a single chunk. Every step of the store acts on each chunk by itself, so the
 * store's invariants can be stated and proved one chunk at a time.
 */
module ChunkLife {
  import opened Voxels
  import opened LogHistory
  import opened StoreMachine

  /** One chunk with the log of its session: sidecar, row and `.bin` on disk; residency and counters in memory. */
  datatype Chunk = Chunk(
    log: Log, tail: Tail,
    file: Option<AccFile>, bin: bool, row: Option<Row>,
    resident: Option<Active>, cell: Option<Stats>)

  ghost predicate Hosted(s: State, k: Key) {
    k.session in s.disk.logs && k.session in s.mem.tails
  }

  ghost function ChunkAt(s: State, k: Key): Chunk
    requires Hosted(s, k)
  {
    Chunk(s.disk.logs[k.session], s.mem.tails[k.session],
          Find(s.disk.acc, k), k in s.disk.bins, Find(s.disk.rows, k),
          Find(s.mem.active, k), Find(s.mem.cells, k))
  }

  predicate Dirty(c: Chunk) {
    c.resident.Some? && c.resident.value.pending > 0
  }

  function Resident(g: Setting, c: Chunk): Active {
    if c.resident.Some? then c.resident.value else FromFile(g, c.file)
  }

  function Counters(c: Chunk): Stats {
    if c.cell.Some? then c.cell.value else Stats(0, 0, true)
  }

  function FuseChunk(g: Setting, k: Key, c: Chunk, b: Batch): Chunk {
    var hit := Touches(g, k, b);
    var st := if hit || (c.cell.Some? && InView(g, k, b)) then Count(Counters(c), b.sequence) else Counters(c);
    c.(cell := if c.cell.Some? || hit then Some(st) else None,
       resident := if c.resident.Some? || hit then Some(FusedActive(g, Resident(g, c), st, b, hit, k)) else None)
  }

  function Written(a: Active): AccFile {
    AccFile(Save(a.vox), a.applied)
  }

  function PersistOne(c: Chunk): Chunk
    requires c.resident.Some? && c.cell.Some?
  {
    var a, st := c.resident.value, c.cell.value;
    var c' := c.(resident := Some(a.(pending := 0)));
    if |a.vox.keys| == 0 then c'
    else c'.(file := Some(Written(a)), bin := true, row := Some(Row(st.opportunities, st.fov)),
             cell := Some(st.(dirty := false)))
  }

  function RestartChunk(c: Chunk): Chunk {
    c.(resident := None,
       cell := if c.row.Some? then Some(Stats(c.row.value.opportunities, c.row.value.fov, false)) else None,
       tail := Tail(c.log.checkpoint, None))
  }

  /** What a legal step of the store says about one chunk. */
  ghost predicate LocalLegal(k: Key, c: Chunk, step: Step) {
    match step
    case Open(session) => session != k.session
    case Append(session, b) => session == k.session ==>
      c.tail.fused == |c.log.records| && b.sequence > Position(c.log.records, |c.log.records|)
    case Fuse(session) => session == k.session ==> c.tail.fused < |c.log.records|
    case Persist(p) => p == k ==> c.resident.Some? && c.cell.Some?
    case Release(p) => p == k ==> c.resident.Some? && c.resident.value.pending == 0
    case FlushCell(p) => p == k ==> c.cell.Some? && c.row.Some? && !Dirty(c)
    case BeginSweep(session, dirty) => session == k.session ==>
      && c.tail.fused == |c.log.records|
      && (k in dirty <==> Dirty(c))
      && (c.cell.Some? && c.cell.value.dirty ==> Dirty(c) || c.row.None?)
    case Pop(session) => session == k.session ==>
      && c.tail.sweep.Some?
      && var pending := c.tail.sweep.value.pending;
      && |pending| > 0 && (pending[|pending| - 1] == k ==> !Dirty(c))
    case EndSweep(session) => session == k.session ==> c.tail.sweep.Some? && c.tail.sweep.value.pending == []
    case CrashInPersist(p, _) => p == k ==> c.resident.Some? && |c.resident.value.vox.keys| > 0
    case Truncate(_) => true
    case Crash => true
    case TearAppend(_) => true
  }

  /** What a step does to one chunk. */
  ghost function Local(g: Setting, k: Key, c: Chunk, step: Step): Chunk
    requires LocalLegal(k, c, step)
  {
    match step
    case Open(_) => c
    case Append(session, b) =>
      if session == k.session then c.(log := c.log.(records := c.log.records + [b])) else c
    case Fuse(session) =>
      if session == k.session then
        FuseChunk(g, k, c, c.log.records[c.tail.fused]).(tail := c.tail.(fused := c.tail.fused + 1))
      else c
    case Persist(p) => if p == k then PersistOne(c) else c
    case Release(p) => if p == k then c.(resident := None) else c
    case FlushCell(p) =>
      if p == k then
        c.(row := Some(Row(c.cell.value.opportunities, c.cell.value.fov)), cell := Some(c.cell.value.(dirty := false)))
      else c
    case BeginSweep(session, dirty) =>
      if session == k.session then c.(tail := c.tail.(sweep := Some(Sweep(|c.log.records|, dirty)))) else c
    case Pop(session) =>
      if session == k.session then
        var sweep := c.tail.sweep.value;
        c.(tail := c.tail.(sweep := Some(sweep.(pending := sweep.pending[..|sweep.pending| - 1]))))
      else c
    case EndSweep(session) =>
      if session == k.session then
        c.(log := c.log.(checkpoint := c.tail.sweep.value.offset), tail := c.tail.(sweep := None))
      else c
    case Truncate(session) => if session == k.session then c.(log := c.log.(torn := false)) else c
    case Crash => RestartChunk(c)
    case TearAppend(session) =>
      RestartChunk(if session == k.session then c.(log := c.log.(torn := true)) else c)
    case CrashInPersist(p, wroteBin) =>
      RestartChunk(if p == k then c.(file := Some(Written(c.resident.value)), bin := c.bin || wroteBin) else c)
  }

  /** A chunk of a session that has just been opened. */
  const UNBORN := Chunk(Log([], false, 0), Tail(0, None), None, false, None, None, None)

  /** Nothing of an unknown session is on disk or in memory. */
  ghost predicate Confined(s: State) {
    && s.disk.logs.Keys == s.mem.tails.Keys
    && (forall k :: k in s.disk.acc || k in s.disk.bins || k in s.disk.rows || k in s.mem.active || k in s.mem.cells
                    ==> k.session in s.disk.logs)
  }

  /** The store's steps act on each chunk by itself. */
  lemma StepIsLocal(g: Setting, s: State, step: Step, k: Key)
    requires Confined(s) && Legal(g, s, step)
    requires k.session in Apply(g, s, step).disk.logs
    ensures Hosted(Apply(g, s, step), k)
    ensures Hosted(s, k) ==> LocalLegal(k, ChunkAt(s, k), step)
                             && ChunkAt(Apply(g, s, step), k) == Local(g, k, ChunkAt(s, k), step)
    ensures !Hosted(s, k) ==> ChunkAt(Apply(g, s, step), k) == UNBORN
  {
    if step.Fuse? {
      FuseStepIsLocal(g, s, step.session, k);
    } else if step.Crash? || step.TearAppend? || step.CrashInPersist? {
      CrashIsLocal(g, s, step, k);
    } else if step.Persist? || step.Release? || step.FlushCell? {
      KeyStepIsLocal(g, s, step, k);
    } else {
      SessionStepIsLocal(g, s, step, k);
    }
  }

  lemma CrashIsLocal(g: Setting, s: State, step: Step, k: Key)
    requires Confined(s) && Legal(g, s, step) && (step.Crash? || step.TearAppend? || step.CrashInPersist?)
    requires k.session in Apply(g, s, step).disk.logs
    ensures Hosted(Apply(g, s, step), k) && Hosted(s, k) && LocalLegal(k, ChunkAt(s, k), step)
    ensures ChunkAt(Apply(g, s, step), k) == Local(g, k, ChunkAt(s, k), step)
  {
    hide FuseMem, FuseChunk, Save;
    RestartIsLocal(s, Apply(g, s, step).disk, k);
    hide Restart;
  }

  /** Restarting on a disk shows each chunk what the disk holds of it. */
  lemma RestartIsLocal(s: State, disk: Disk, k: Key)
    requires Hosted(s, k) && k.session in disk.logs
    ensures Hosted(State(disk, Restart(disk)), k)
    ensures ChunkAt(State(disk, Restart(disk)), k)
         == RestartChunk(Chunk(disk.logs[k.session], s.mem.tails[k.session], Find(disk.acc, k), k in disk.bins,
                               Find(disk.rows, k),
                               Find(s.mem.active, k), Find(s.mem.cells, k)))
  {
  }

  lemma KeyStepIsLocal(g: Setting, s: State, step: Step, k: Key)
    requires Confined(s) && Legal(g, s, step) && (step.Persist? || step.Release? || step.FlushCell?)
    requires k.session in Apply(g, s, step).disk.logs
    ensures Hosted(Apply(g, s, step), k) && Hosted(s, k) && LocalLegal(k, ChunkAt(s, k), step)
    ensures ChunkAt(Apply(g, s, step), k) == Local(g, k, ChunkAt(s, k), step)
  {
    hide FuseMem, FuseChunk, Restart, RestartChunk;
  }

  lemma SessionStepIsLocal(g: Setting, s: State, step: Step, k: Key)
    requires Confined(s) && Legal(g, s, step)
    requires step.Open? || step.Append? || step.BeginSweep? || step.Pop? || step.EndSweep? || step.Truncate?
    requires k.session in Apply(g, s, step).disk.logs
    ensures Hosted(Apply(g, s, step), k)
    ensures Hosted(s, k) ==> LocalLegal(k, ChunkAt(s, k), step)
                             && ChunkAt(Apply(g, s, step), k) == Local(g, k, ChunkAt(s, k), step)
    ensures !Hosted(s, k) ==> ChunkAt(Apply(g, s, step), k) == UNBORN
  {
    hide FuseMem, FuseChunk, Restart, RestartChunk;
  }

  lemma FuseStepIsLocal(g: Setting, s: State, session: SessionId, k: Key)
    requires Confined(s) && Legal(g, s, Fuse(session)) && k.session in s.disk.logs
    ensures Hosted(Apply(g, s, Fuse(session)), k) && Hosted(s, k) && LocalLegal(k, ChunkAt(s, k), Fuse(session))
    ensures ChunkAt(Apply(g, s, Fuse(session)), k) == Local(g, k, ChunkAt(s, k), Fuse(session))
  {
    FuseIsLocal(g, s, session, k);
    hide FuseMem, FuseChunk;
  }

  lemma FuseIsLocal(g: Setting, s: State, session: SessionId, k: Key)
    requires Confined(s) && Legal(g, s, Fuse(session)) && Hosted(s, k)
    ensures var b := s.disk.logs[session].records[s.mem.tails[session].fused];
            var m := FuseMem(g, s.disk, s.mem, session, b, None);
            var c := if k.session == session then FuseChunk(g, k, ChunkAt(s, k), b) else ChunkAt(s, k);
            Find(m.active, k) == c.resident && Find(m.cells, k) == c.cell && m.tails == s.mem.tails
  {
    var b := s.disk.logs[session].records[s.mem.tails[session].fused];
    FusePerChunk(g, s.disk, s.mem, session, b, None, k);
    if k.session == session {
      assert ActiveAt(g, s.disk, s.mem, k) == Resident(g, ChunkAt(s, k));
      assert StatsAt(s.mem, k) == Counters(ChunkAt(s, k));
    }
  }

  lemma StepKeepsConfined(g: Setting, s: State, step: Step)
    requires Confined(s) && Legal(g, s, step)
    ensures Confined(Apply(g, s, step))
  {
    if step.Fuse? {
      var b := s.disk.logs[step.session].records[s.mem.tails[step.session].fused];
      forall k: Key {
        FusePerChunk(g, s.disk, s.mem, step.session, b, None, k);
      }
    }
  }
}
