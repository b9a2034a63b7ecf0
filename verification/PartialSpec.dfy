/** What a partial rebuild does to each chunk while it walks the batch index. */
module PartialSpec {
  import opened Voxels
  import opened LogHistory
  import opened StoreMachine
  import opened ChunkLife
  import opened StoreSafety
  import opened Residency
  import opened WriteBack
  import opened RebuildSpec
  import opened ChunkStores

  // ---------------------------------------------------------------- which chunks are affected

  /** The index describes every record as it was fused. */
  ghost predicate Describes(g: Setting, session: SessionId, rows: seq<IndexRow>, log: seq<Batch>) {
    |rows| == |log| && forall i :: 0 <= i < |rows| ==> rows[i] == RowFor(g, session, log[i], i)
  }

  /** Every batch outside `changed` is fused where it would be fused now. */
  ghost predicate Covers(g: Setting, session: SessionId, rows: seq<IndexRow>, log: seq<Batch>, changed: set<nat>) {
    |rows| == |log| && forall i :: 0 <= i < |log| && i !in changed ==> rows[i].fusedPose == PoseOf(g, session, log[i])
  }

  /** The chunks a batch's points fall in under the current corrections. */
  function NowSpans(g: Setting, session: SessionId, b: Batch): set<Cell> {
    Spanned(g, PoseOf(g, session, b), b.points)
  }

  /** Chunks the changed batches used to span plus the chunks they now span. */
  ghost predicate Affects(g: Setting, session: SessionId, rows: seq<IndexRow>, log: seq<Batch>, changed: set<nat>,
                          n: nat, affected: set<Cell>)
    requires n <= |rows| == |log|
  {
    forall c :: c in affected <==>
      exists i :: 0 <= i < n && i in changed && (c in rows[i].chunks || c in NowSpans(g, session, log[i]))
  }

  lemma TouchIsSpan(g: Setting, k: Key, b: Batch)
    ensures Touches(g, k, b) <==> k.chunk in NowSpans(g, k.session, b)
  {
    SpannedIsLanded(g, PoseOf(g, k.session, b), b.points, k.chunk);
  }

  /** A chunk that is not affected gets the same points from every batch as before the correction. */
  lemma UnaffectedSamePoints(g: Setting, g': Setting, k: Key, rows: seq<IndexRow>, log: seq<Batch>, changed: set<nat>,
                             affected: set<Cell>)
    requires DiffersIn(g, g', k.session) && Describes(g, k.session, rows, log)
             && Covers(g', k.session, rows, log, changed)
    requires Affects(g', k.session, rows, log, changed, |rows|, affected) && k.chunk !in affected
    ensures SamePoints(g, g', k, log)
  {
    forall i | 0 <= i < |log|
      ensures LandedIn(g, k, log[i]) == LandedIn(g', k, log[i])
    {
      if i in changed {
        TouchIsSpan(g, k, log[i]);
        TouchIsSpan(g', k, log[i]);
      } else {
        SameLanded(g, g', PoseOf(g, k.session, log[i]), log[i].points, k.chunk);
      }
    }
  }

  /** Every batch that now touches an affected chunk is changed or was already recorded as spanning one. */
  lemma TouchingIsReplayed(g: Setting, g': Setting, k: Key, rows: seq<IndexRow>, log: seq<Batch>, changed: set<nat>,
                           affected: set<Cell>, i: nat)
    requires DiffersIn(g, g', k.session) && Describes(g, k.session, rows, log)
             && Covers(g', k.session, rows, log, changed)
    requires i < |rows| && i !in changed && rows[i].chunks !! affected && k.chunk in affected
    ensures !Touches(g', k, log[i])
  {
    TouchIsSpan(g', k, log[i]);
    SameLanded(g, g', PoseOf(g, k.session, log[i]), log[i].points, k.chunk);
  }

  // ---------------------------------------------------------------- a chunk part of the way

  /** The chunk of a session of which only the first `n` records have been walked. */
  function As(c: Chunk, n: nat): Chunk {
    c.(tail := Tail(n, None))
  }

  /** A chunk being rebuilt holds the first `n` records, fused once each under the current corrections. */
  ghost predicate Midway(g: Setting, k: Key, c: Chunk, n: nat, from: Content) {
    var log := c.log.records;
    n <= |log| && ChunkOk(g, k, As(c, n)) &&
    var f, p := FoldFrom(g, k, from, log[..n]), Position(log, n);
    && Resident(g, c).vox == f.vox
    && c.cell.Some? == f.known
    && Counters(c).opportunities == f.opportunities
    && Counters(c).fov <= p && MemApplied(c) <= p
  }

  lemma MidwayStep(g: Setting, k: Key, c: Chunk, n: nat, from: Content)
    requires Stable(g.voxelOf) && Midway(g, k, c, n, from) && n < |c.log.records|
    ensures Midway(g, k, FuseChunk(g, k, c, c.log.records[n]), n + 1, from)
  {
    hide FoldFrom, Load, Save;
    MidwayStaysOk(g, k, c, n);
    var log := c.log.records;
    assert Position(log, n) < log[n].sequence;
    hide ChunkOk;
    FoldNext(g, k, from, log, n);
  }

  lemma FoldNext(g: Setting, k: Key, from: Content, log: seq<Batch>, n: nat)
    requires n < |log|
    ensures FoldFrom(g, k, from, log[..n + 1]) == Observe(g, k, FoldFrom(g, k, from, log[..n]), log[n])
  {
    assert log[..n + 1][..n] == log[..n] && |log[..n + 1]| == n + 1;
    FoldStep(g, k, from, log[..n + 1]);
  }

  lemma FoldStep(g: Setting, k: Key, from: Content, log: seq<Batch>)
    requires |log| > 0
    ensures FoldFrom(g, k, from, log) == Observe(g, k, FoldFrom(g, k, from, log[..|log| - 1]), log[|log| - 1])
  {
  }

  lemma MidwayStaysOk(g: Setting, k: Key, c: Chunk, n: nat)
    requires Stable(g.voxelOf) && n < |c.log.records| && ChunkOk(g, k, As(c, n))
    ensures ChunkOk(g, k, As(FuseChunk(g, k, c, c.log.records[n]), n + 1))
    ensures Increasing(c.log.records) && Resident(g, c).applied == MemApplied(c)
  {
    FuseKeepsChunk(g, k, As(c, n));
    SeededHolds(g, k, As(c, n));
    assert As(FuseChunk(g, k, c, c.log.records[n]), n + 1)
        == FuseChunk(g, k, As(c, n), c.log.records[n]).(tail := Tail(n + 1, None));
  }

  lemma MidwayKept(g: Setting, k: Key, c: Chunk, c': Chunk, n: nat, from: Content)
    requires Midway(g, k, c, n, from) && SameContent(g, c, c') && c'.log == c.log && ChunkOk(g, k, As(c', n))
    ensures Midway(g, k, c', n, from)
  {
  }

  /** Where a rebuilt chunk starts: a cell that was registered before stays registered, emptied. */
  function Origin(known: bool): Content {
    if known then RESET else NOTHING
  }

  lemma OriginSinceBirth(g: Setting, k: Key, known: bool, log: seq<Batch>)
    ensures SameSinceBirth(FoldFrom(g, k, Origin(known), log), FoldAll(g, k, log))
  {
    ResetKeepsRatios(g, k, log);
  }

  /** An emptied chunk is at the start of the walk. */
  lemma EmptyIsMidway(g: Setting, k: Key, c: Chunk)
    requires LogOk(c.log, Tail(0, None)) && c.log.checkpoint == 0
    requires c.file.None? && !c.bin && c.row.None? && c.resident.None?
    requires c.cell.Some? ==> c.cell.value == Stats(0, 0, true)
    ensures Midway(g, k, c, 0, Origin(c.cell.Some?))
  {
    HistoryAtZero(g, k, c.log.records);
  }

  /** At the end of the walk the chunk is in order again, whether or not its cell stays registered. */
  lemma MidwayDone(g: Setting, k: Key, c: Chunk, from: Content, known: bool)
    requires Midway(g, k, c, |c.log.records|, from) && from == Origin(known)
    requires c.tail == Tail(|c.log.records|, None)
    ensures ChunkOk(g, k, c) && (c.resident.None? ==> ChunkOk(g, k, c.(cell := None)))
    ensures SameSinceBirth(Content(Resident(g, c).vox, Counters(c).opportunities, true), FoldAll(g, k, c.log.records))
  {
    assert c == As(c, |c.log.records|);
    assert c.log.records[..|c.log.records|] == c.log.records;
    OriginSinceBirth(g, k, known, c.log.records);
  }

  // ---------------------------------------------------------------- the store part of the way

  predicate Rebuilt(session: SessionId, affected: set<Cell>, k: Key) {
    k.session == session && k.chunk in affected
  }

  ghost predicate WalkedChunk(g: Setting, session: SessionId, affected: set<Cell>, base: State, s: State, n: nat,
                              k: Key)
    requires Hosted(s, k)
  {
    if Rebuilt(session, affected, k) then Midway(g, k, ChunkAt(s, k), n, Origin(k in base.mem.cells))
    else Hosted(base, k) && ChunkOk(g, k, ChunkAt(s, k)) && SameContent(g, ChunkAt(base, k), ChunkAt(s, k))
  }

  /** The state after walking the first `n` index rows of a rebuild that started at `base`. */
  ghost predicate Walked(g: Setting, session: SessionId, affected: set<Cell>, base: State, s: State, n: nat) {
    && Confined(s) && s.disk.logs == base.disk.logs && s.mem.tails == base.mem.tails
    && forall k: Key :: Hosted(s, k) ==> WalkedChunk(g, session, affected, base, s, n, k)
  }

  /** Fusing a batch into the affected chunks only. */
  lemma WalkFuse(g: Setting, session: SessionId, affected: set<Cell>, base: State, s: State, n: nat, b: Batch)
    requires Stable(g.voxelOf) && Walked(g, session, affected, base, s, n)
    requires session in s.disk.logs && n < |s.disk.logs[session].records| && b == s.disk.logs[session].records[n]
    ensures Walked(g, session, affected, base, State(s.disk, FuseMem(g, s.disk, s.mem, session, b, Some(affected))),
                   n + 1)
  {
    var t := State(s.disk, FuseMem(g, s.disk, s.mem, session, b, Some(affected)));
    FusePerChunk(g, s.disk, s.mem, session, b, Some(affected), Key(session, Cell(0, 0, 0)));
    assert t.mem.tails == s.mem.tails;
    forall k: Key
      ensures k in t.mem.active || k in t.mem.cells ==> k.session in s.disk.logs
      ensures Hosted(t, k) ==> WalkedChunk(g, session, affected, base, t, n + 1, k)
    {
      FusePerChunk(g, s.disk, s.mem, session, b, Some(affected), k);
      if Hosted(t, k) {
        assert WalkedChunk(g, session, affected, base, s, n, k);
        WalkFuseChunk(g, session, affected, s, n, b, k);
        if Rebuilt(session, affected, k) {
          MidwayStep(g, k, ChunkAt(s, k), n, Origin(k in base.mem.cells));
        }
      }
    }
  }

  lemma WalkFuseChunk(g: Setting, session: SessionId, affected: set<Cell>, s: State, n: nat, b: Batch, k: Key)
    requires Hosted(s, k)
    ensures var t := State(s.disk, FuseMem(g, s.disk, s.mem, session, b, Some(affected)));
            && Hosted(t, k)
            && ChunkAt(t, k) == if Rebuilt(session, affected, k) then FuseChunk(g, k, ChunkAt(s, k), b)
                else ChunkAt(s, k)
  {
    FusePerChunk(g, s.disk, s.mem, session, b, Some(affected), k);
    if k.session == session {
      assert ActiveAt(g, s.disk, s.mem, k) == Resident(g, ChunkAt(s, k));
      assert StatsAt(s.mem, k) == Counters(ChunkAt(s, k));
    }
    hide FuseMem;
  }

  /** Counting a batch that touches no affected chunk. */
  lemma WalkCount(g: Setting, session: SessionId, affected: set<Cell>, base: State, s: State, n: nat, b: Batch)
    requires Stable(g.voxelOf) && Walked(g, session, affected, base, s, n)
    requires session in s.disk.logs && n < |s.disk.logs[session].records| && b == s.disk.logs[session].records[n]
    requires forall k: Key :: Rebuilt(session, affected, k) ==> !Touches(g, k, b)
    ensures var cells := CountView(g, session, b.sequence, PoseOf(g, session, b), Some(affected), s.mem.cells);
            Walked(g, session, affected, base, s.(mem := s.mem.(cells := cells)), n + 1)
  {
    hide Spanned, ChunkOk, FoldFrom;
    var t := s.(mem := s.mem.(cells := CountView(g, session, b.sequence, PoseOf(g, session, b), Some(affected),
                                                 s.mem.cells)));
    forall k: Key | Hosted(t, k)
      ensures WalkedChunk(g, session, affected, base, t, n + 1, k)
    {
      assert WalkedChunk(g, session, affected, base, s, n, k);
      if Rebuilt(session, affected, k) {
        MidwayStep(g, k, ChunkAt(s, k), n, Origin(k in base.mem.cells));
        assert ChunkAt(t, k) == FuseChunk(g, k, ChunkAt(s, k), b);
      } else {
        assert ChunkAt(t, k) == ChunkAt(s, k);
      }
    }
  }

  /** Flushes and evictions on the way do not disturb the walk. */
  lemma WalkWrite(g: Setting, session: SessionId, affected: set<Cell>, base: State, s: State, n: nat, run: seq<Step>,
                  t: State)
    requires Stable(g.voxelOf) && Walked(g, session, affected, base, s, n)
    requires WritesBack(run) && Leads(g, s, run, t) && Confined(t)
    ensures Walked(g, session, affected, base, t, n)
  {
    WriteBackKeepsLogs(g, s, run, t);
    forall k: Key | Hosted(t, k)
      ensures WalkedChunk(g, session, affected, base, t, n, k)
    {
      assert WalkedChunk(g, session, affected, base, s, n, k);
      var c := ChunkAt(s, k);
      if Rebuilt(session, affected, k) {
        ChunkOkIsCoherent(g, k, As(c, n));
        WriteBackKeepsContent(g, s, run, t, k);
        WriteBackKeepsChunk(g, s, run, t, k, Tail(n, None));
        MidwayKept(g, k, c, ChunkAt(t, k), n, Origin(k in base.mem.cells));
      } else {
        ChunkOkIsCoherent(g, k, c);
        WriteBackKeepsContent(g, s, run, t, k);
        assert c == c.(tail := c.tail);
        WriteBackKeepsChunk(g, s, run, t, k, c.tail);
        assert ChunkAt(t, k).tail == c.tail;
      }
    }
  }

  lemma {:induction false} WriteBackKeepsChunk(g: Setting, s: State, run: seq<Step>, t: State, k: Key, tail: Tail)
    requires Stable(g.voxelOf) && Confined(s) && WritesBack(run) && Leads(g, s, run, t) && Hosted(s, k)
    requires ChunkOk(g, k, ChunkAt(s, k).(tail := tail))
    ensures Confined(t) && Hosted(t, k) && ChunkOk(g, k, ChunkAt(t, k).(tail := tail))
    decreases |run|
  {
    hide ChunkOk, Confined, FuseMem, Restart;
    if |run| > 0 {
      var u, step := Exec(g, s, run[..|run| - 1]).value, run[|run| - 1];
      WriteBackKeepsChunk(g, s, run[..|run| - 1], u, k, tail);
      StepKeepsConfined(g, u, step);
      StepIsLocal(g, u, step, k);
      StepKeepsChunk(g, k, ChunkAt(u, k).(tail := tail), step);
    }
  }

  // ---------------------------------------------------------------- which rebuilt chunks stay resident

  /** The affected chunks some batch of the log touches. */
  ghost function Populated(g: Setting, session: SessionId, affected: set<Cell>, log: seq<Batch>): set<Cell> {
    set c | c in affected && FoldAll(g, Key(session, c), log).known
  }

  /** Rebuilt chunks are resident from their first batch on, and together outlast all others, while they fit. */
  ghost predicate Crowd(g: Setting, session: SessionId, affected: set<Cell>, log: seq<Batch>, max: nat, order: seq<Key>,
                        n: nat)
    requires n <= |log|
  {
    var here := Populated(g, session, affected, log[..n]);
    && Distinct(order) && Behind(order, ChunksOf(session, affected))
    && Keys(order) * ChunksOf(session, affected) <= ChunksOf(session, here)
    && (|Populated(g, session, affected, log)| <= max ==> ChunksOf(session, here) <= Keys(order))
    && (here != {} ==> |order| <= max)
  }

  lemma {:induction false} KnownGrows(g: Setting, k: Key, log: seq<Batch>, n: nat)
    requires n <= |log|
    ensures FoldAll(g, k, log[..n]).known ==> FoldAll(g, k, log).known
    decreases |log|
  {
    if n < |log| {
      KnownGrows(g, k, log[..|log| - 1], n);
      assert log[..|log| - 1][..n] == log[..n];
    } else {
      assert log[..n] == log;
    }
  }

  lemma PopulatedStep(g: Setting, session: SessionId, affected: set<Cell>, log: seq<Batch>, n: nat)
    requires n < |log|
    ensures Populated(g, session, affected, log[..n + 1])
         == Populated(g, session, affected, log[..n]) + (set c | c in affected && Touches(g, Key(session, c), log[n]))
    ensures Populated(g, session, affected, log[..n + 1]) <= Populated(g, session, affected, log)
  {
    assert log[..n + 1][..n] == log[..n];
    forall c | c in affected
      ensures FoldAll(g, Key(session, c), log[..n + 1]).known ==> FoldAll(g, Key(session, c), log).known
    {
      KnownGrows(g, Key(session, c), log, n + 1);
    }
  }

  lemma ChunksOfHas(session: SessionId, chunks: set<Cell>, k: Key)
    ensures k in ChunksOf(session, chunks) <==> k.session == session && k.chunk in chunks
  {
    assert k == Key(k.session, k.chunk);
  }

  lemma CrowdCount(g: Setting, session: SessionId, affected: set<Cell>, log: seq<Batch>, max: nat, order: seq<Key>,
                   n: nat)
    requires n < |log| && Crowd(g, session, affected, log, max, order, n)
    requires forall k: Key :: Rebuilt(session, affected, k) ==> !Touches(g, k, log[n])
    ensures Crowd(g, session, affected, log, max, order, n + 1)
  {
    PopulatedStep(g, session, affected, log, n);
    forall c | c in affected ensures !Touches(g, Key(session, c), log[n]) {
      assert Rebuilt(session, affected, Key(session, c));
    }
    assert Populated(g, session, affected, log[..n + 1]) == Populated(g, session, affected, log[..n]);
  }

  /** Fusing adds the chunks it touches; evicting down to the budget takes others first. */
  lemma CrowdFuse(g: Setting, session: SessionId, affected: set<Cell>, log: seq<Batch>, max: nat,
                  disk: Disk, mem: Mem, order: seq<Key>, n: nat, ranked: seq<Key>, touched: seq<Key>)
    requires n < |log| && Crowd(g, session, affected, log, max, order, n) && Keys(order) == mem.active.Keys
    requires Ranks(session, Some(affected), order, ranked, touched)
    requires Keys(ranked) == FuseMem(g, disk, mem, session, log[n], Some(affected)).active.Keys
    ensures Crowd(g, session, affected, log, max, Newest(ranked, max), n + 1)
  {
    var all := ChunksOf(session, affected);
    var here := Populated(g, session, affected, log[..n + 1]);
    PopulatedStep(g, session, affected, log, n);
    NewestKeepsBehind(ranked, all, max);
    forall k: Key
      ensures k in Keys(ranked) <==> k in Keys(order) || (Rebuilt(session, affected, k) && Touches(g, k, log[n]))
    {
      FusePerChunk(g, disk, mem, session, log[n], Some(affected), k);
    }
    hide FuseMem, Ranks, Newest;
    var before := Populated(g, session, affected, log[..n]);
    forall k: Key
      ensures k in all <==> k.session == session && k.chunk in affected
      ensures k in ChunksOf(session, here) <==> k.session == session && k.chunk in here
      ensures k in ChunksOf(session, before) <==> k.session == session && k.chunk in before
    {
      ChunksOfHas(session, affected, k);
      ChunksOfHas(session, here, k);
      ChunksOfHas(session, before, k);
    }
    hide ChunksOf;
    assert Keys(ranked) * all <= ChunksOf(session, here);
    if |Populated(g, session, affected, log)| <= max {
      assert ChunksOf(session, here) <= Keys(ranked) * all;
      ChunksOfSize(session, here);
      Subset(here, Populated(g, session, affected, log));
      Subset(Keys(ranked) * all, ChunksOf(session, here));
      NewestSpares(ranked, all, max);
    }
  }
}
