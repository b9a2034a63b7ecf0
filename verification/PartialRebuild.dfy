/** Re-fusing only what a pose correction moved, driven by the batch index. */
module PartialRebuild {
  import opened Voxels
  import opened Poses
  import opened LogHistory
  import opened StoreMachine
  import opened ChunkLife
  import opened StoreSafety
  import opened Recovery
  import opened Residency
  import opened WriteBack
  import opened RebuildSpec
  import opened Sums
  import opened ChunkStores
  import opened PartialSpec
  import opened Rebuild

  // ---------------------------------------------------------------- counters of chunks left alone

  /** A moved batch takes away or adds the opportunity its pose stopped or started giving. */
  function Shift(st: Stats, before: bool, after: bool): Stats {
    if before && !after then Stats(if st.opportunities > 0 then st.opportunities - 1 else 0, st.fov, true)
    else if after && !before then Stats(st.opportunities + 1, st.fov, true)
    else st
  }

  /** A cell's counters after the first `n` index rows, of which the changed ones moved. */
  function Adjusted(g: Setting, session: SessionId, rows: seq<IndexRow>, changed: set<nat>, affected: set<Cell>, n: nat,
                    k: Key, st: Stats): Stats
    requires n <= |rows|
  {
    if n == 0 || k.session != session || k.chunk in affected then st
    else
      var st' := Adjusted(g, session, rows, changed, affected, n - 1, k, st);
      var row := rows[n - 1];
      if n - 1 !in changed then st'
      else Shift(st', g.inView(session, row.fusedPose, k.chunk),
                 g.inView(session, g.effective(session, row.poseSequence, row.loggedPose), k.chunk))
  }

  method AdjustView(store: ChunkStore, session: SessionId, before: Pose, after: Pose, affected: set<Cell>)
    modifies store`cells
    ensures store.cells == map k | k in old(store.cells) ::
              if k.session == session && k.chunk !in affected then
                Shift(old(store.cells)[k], store.setting.inView(session, before, k.chunk),
                      store.setting.inView(session, after, k.chunk))
              else old(store.cells)[k]
  {
    var was := store.cells;
    var seenBefore := set k | k in was && k.session == session && store.setting.inView(session, before, k.chunk);
    var seenAfter := set k | k in was && k.session == session && store.setting.inView(session, after, k.chunk);
    var todo := was.Keys;
    while todo != {}
      invariant todo <= was.Keys && store.cells.Keys == was.Keys
      invariant forall k :: k in todo ==> store.cells[k] == was[k]
      invariant forall k :: k in was && k !in todo ==>
                  store.cells[k] == if k.session == session && k.chunk !in affected
                                    then Shift(was[k], k in seenBefore, k in seenAfter) else was[k]
      decreases todo
    {
      var key :| key in todo;
      todo := todo - {key};
      if key.chunk !in affected {
        var st := store.cells[key];
        if key in seenBefore && key !in seenAfter {
          store.cells := store.cells[key := Stats(if st.opportunities > 0 then st.opportunities - 1
                                                  else 0, st.fov, true)];
        } else if key in seenAfter && key !in seenBefore {
          store.cells := store.cells[key := Stats(st.opportunities + 1, st.fov, true)];
        }
      }
    }
  }

  method AdjustViews(store: ChunkStore, session: SessionId, changed: set<nat>, affected: set<Cell>)
    requires session in store.index
    modifies store`cells
    ensures store.cells.Keys == old(store.cells).Keys
    ensures forall k :: k in store.cells ==>
              store.cells[k] == Adjusted(store.setting, session, store.index[session], changed, affected,
                                         |store.index[session]|, k, old(store.cells)[k])
  {
    var rows := store.index[session];
    for i := 0 to |rows|
      invariant store.cells.Keys == old(store.cells).Keys
      invariant forall k :: k in store.cells ==>
                  store.cells[k] == Adjusted(store.setting, session, rows, changed, affected, i, k, old(store.cells)[k])
    {
      if i in changed {
        AdjustView(store, session, rows[i].fusedPose,
                   store.setting.effective(session, rows[i].poseSequence, rows[i].loggedPose), affected);
      }
    }
  }

  // ---------------------------------------------------------------- starting the rebuild

  /** The affected chunks, from where the changed batches were and where they are now. */
  /** A moved batch's credit or debit marks the cell for saving. */
  lemma {:induction false} AdjustedIsSaved(g: Setting, session: SessionId, rows: seq<IndexRow>, changed: set<nat>,
                                           affected: set<Cell>, n: nat, k: Key, st: Stats, row: Option<Row>)
    requires n <= |rows| && SavedCell(st, row)
    ensures SavedCell(Adjusted(g, session, rows, changed, affected, n, k, st), row)
  {
    if n > 0 { AdjustedIsSaved(g, session, rows, changed, affected, n - 1, k, st, row); }
  }

  method AffectedChunks(store: ChunkStore, session: SessionId, changed: set<nat>) returns (affected: set<Cell>)
    requires session in store.index && session in store.disk.logs
    requires |store.index[session]| == |store.disk.logs[session].records|
    ensures Affects(store.setting, session, store.index[session], store.disk.logs[session].records, changed,
                    |store.index[session]|, affected)
  {
    affected := {};
    var rows := store.index[session];
    for i := 0 to |rows|
      invariant Affects(store.setting, session, rows, store.disk.logs[session].records, changed, i, affected)
    {
      if i in changed {
        affected := affected + rows[i].chunks + NowSpans(store.setting, session, store.disk.logs[session].records[i]);
      }
    }
  }

  /** The affected chunks are gone, resident and on disk, their cells emptied, and the log is rewound. */
  ghost predicate Started(before: State, s: State, session: SessionId, affected: set<Cell>) {
    && session in before.disk.logs && session in before.mem.tails
    && s.disk.logs == before.disk.logs[session := before.disk.logs[session].(checkpoint := 0)]
    && s.mem.tails == before.mem.tails[session := before.mem.tails[session].(sweep := None)]
    && s.mem.cells.Keys == before.mem.cells.Keys
    && forall k: Key ::
         if Rebuilt(session, affected, k) then
           && k !in s.disk.acc && k !in s.disk.bins && k !in s.disk.rows && k !in s.mem.active
           && (k in s.mem.cells ==> s.mem.cells[k] == Stats(0, 0, true))
         else
           && Find(s.disk.acc, k) == Find(before.disk.acc, k) && (k in s.disk.bins <==> k in before.disk.bins)
           && Find(s.disk.rows, k) == Find(before.disk.rows, k) && Find(s.mem.active, k) == Find(before.mem.active, k)
           && (k.session != session ==> Find(s.mem.cells, k) == Find(before.mem.cells, k))
  }

  method DropAffected(store: ChunkStore, session: SessionId, affected: set<Cell>)
    requires store.Valid() && session in store.disk.logs && session in store.tails
    modifies store`disk, store`active, store`order, store`cells, store`tails
    ensures store.Valid() && Started(old(store.Current()), store.Current(), session, affected)
    ensures old(Saved(store.Current())) ==> Saved(store.Current())
    ensures forall k :: k in store.cells && !Rebuilt(session, affected, k) ==> store.cells[k] == old(store.cells)[k]
    ensures forall k :: k in store.order ==> !Rebuilt(session, affected, k)
  {
    hide Outside, Lists, ChunksOf, Confined, Started;
    ghost var before := store.Current();
    var doomed := ChunksOf(session, affected);
    DoomedAreRebuilt(session, affected);
    StrippedIsStarted(before, session, affected, doomed);
    var disk := store.disk;
    store.tails := store.tails[session := store.tails[session].(sweep := None)];
    OutsideLists(store.order, store.active, doomed);
    store.active := store.active - doomed;
    store.order := Outside(store.order, doomed);
    store.cells := map k | k in store.cells :: if k in doomed then Stats(0, 0, true) else store.cells[k];
    store.disk := Disk(disk.logs[session := disk.logs[session].(checkpoint := 0)],
                       disk.acc - doomed, disk.bins - doomed, disk.rows - doomed);
    assert store.Current() == StartState(before, session, doomed);
    StartIsSaved(before, session, doomed);
  }

  lemma StartIsSaved(s: State, session: SessionId, doomed: set<Key>)
    requires session in s.disk.logs && session in s.mem.tails
    ensures Saved(s) ==> Saved(StartState(s, session, doomed))
  {
    if Saved(s) {
      var t := StartState(s, session, doomed);
      forall k | k in t.mem.cells ensures SavedCell(t.mem.cells[k], Find(t.disk.rows, k)) {
        assert SavedCell(s.mem.cells[k], Find(s.disk.rows, k));
      }
    }
  }

  ghost function StartState(s: State, session: SessionId, doomed: set<Key>): State
    requires session in s.disk.logs && session in s.mem.tails
  {
    State(Disk(s.disk.logs[session := s.disk.logs[session].(checkpoint := 0)],
               s.disk.acc - doomed, s.disk.bins - doomed, s.disk.rows - doomed),
          Mem(s.mem.active - doomed, map k | k in s.mem.cells :: if k in doomed then Stats(0, 0, true)
              else s.mem.cells[k],
              s.mem.tails[session := s.mem.tails[session].(sweep := None)]))
  }

  lemma DoomedAreRebuilt(session: SessionId, affected: set<Cell>)
    ensures forall k: Key :: k in ChunksOf(session, affected) <==> Rebuilt(session, affected, k)
  {
    forall k: Key ensures k in ChunksOf(session, affected) <==> Rebuilt(session, affected, k) {
      ChunksOfHas(session, affected, k);
    }
  }

  lemma StrippedIsStarted(s: State, session: SessionId, affected: set<Cell>, doomed: set<Key>)
    requires Confined(s) && session in s.disk.logs && session in s.mem.tails
    requires forall k: Key :: k in doomed <==> Rebuilt(session, affected, k)
    ensures Confined(StartState(s, session, doomed)) && Started(s, StartState(s, session, doomed), session, affected)
  {
  }

  // ---------------------------------------------------------------- the start is a walk of nothing

  /** A correction that brings a chunk the same points leaves it in order, whatever its counters. */
  lemma CorrectedKeepsChunk(g: Setting, g': Setting, k: Key, c: Chunk, c': Chunk)
    requires g'.voxelOf == g.voxelOf && ChunkOk(g, k, c) && SamePoints(g, g', k, c.log.records)
    requires c'.file == c.file && c'.bin == c.bin && c'.row == c.row && c'.resident == c.resident
    requires c'.cell.Some? == c.cell.Some?
    requires (c'.log == c.log.(checkpoint := 0) && c'.tail == c.tail.(sweep := None))
             || (c'.log == c.log && c'.tail == c.tail)
    ensures ChunkOk(g', k, c')
  {
    SamePointsHold(g, g', k, c.log.records);
    assert FromFile(g, c.file) == FromFile(g', c.file);
    hide Holds, Quiet, Increasing, FromFile;
  }

  lemma SamePointsHold(g: Setting, g': Setting, k: Key, log: seq<Batch>)
    requires g'.voxelOf == g.voxelOf && SamePoints(g, g', k, log)
    ensures forall vox: VoxelMap, a: nat :: Holds(g, k, log, vox, a) == Holds(g', k, log, vox, a)
    ensures forall a: nat, b: nat :: Quiet(g, k, log, a, b) == Quiet(g', k, log, a, b)
  {
    assert forall i :: 0 <= i < |log| ==> Touches(g, k, log[i]) == Touches(g', k, log[i]);
    forall vox: VoxelMap, a: nat ensures Holds(g, k, log, vox, a) == Holds(g', k, log, vox, a) {
      SamePointsSameVoxels(g, g', k, log, a);
    }
  }

  lemma StartedIsWalked(g: Setting, g': Setting, before: State, s: State, session: SessionId, rows: seq<IndexRow>,
                        changed: set<nat>, affected: set<Cell>)
    requires Inv(g, before) && Confined(s) && CaughtUp(before, session) && Started(before, s, session, affected)
    requires DiffersIn(g, g', session)
    requires var log := before.disk.logs[session].records;
             && Describes(g, session, rows, log) && Covers(g', session, rows, log, changed)
             && Affects(g', session, rows, log, changed, |rows|, affected)
    ensures Walked(g', session, affected, s, s, 0)
  {
    forall k: Key | Hosted(s, k)
      ensures WalkedChunk(g', session, affected, s, s, 0, k)
    {
      assert Hosted(before, k) && ChunkOk(g, k, ChunkAt(before, k));
      StartedChunkIsWalked(g, g', before, s, session, rows, changed, affected, k);
    }
  }

  lemma StartedChunkIsWalked(g: Setting, g': Setting, before: State, s: State, session: SessionId, rows: seq<IndexRow>,
                             changed: set<nat>, affected: set<Cell>, k: Key)
    requires CaughtUp(before, session) && Started(before, s, session, affected) && DiffersIn(g, g', session)
    requires var log := before.disk.logs[session].records;
             && Describes(g, session, rows, log) && Covers(g', session, rows, log, changed)
             && Affects(g', session, rows, log, changed, |rows|, affected)
    requires Hosted(s, k) && Hosted(before, k) && ChunkOk(g, k, ChunkAt(before, k))
    ensures WalkedChunk(g', session, affected, s, s, 0, k)
  {
    var c, c' := ChunkAt(before, k), ChunkAt(s, k);
    if Rebuilt(session, affected, k) {
      EmptyIsMidway(g', k, c');
    } else if k.session == session {
      UnaffectedSamePoints(g, g', k, rows, before.disk.logs[session].records, changed, affected);
      CorrectedKeepsChunk(g, g', k, c, c');
    } else {
      assert c' == c;
      ChunkOkElsewhere(g, g', session, k, c);
    }
  }

  lemma NothingPopulated(g: Setting, session: SessionId, affected: set<Cell>, log: seq<Batch>, max: nat,
                         order: seq<Key>)
    requires Distinct(order) && forall k :: k in order ==> !Rebuilt(session, affected, k)
    ensures Crowd(g, session, affected, log, max, order, 0)
  {
    DoomedAreRebuilt(session, affected);
    assert log[..0] == [];
    assert Populated(g, session, affected, []) == {};
    assert ChunksOf(session, {}) == {};
    forall i | 0 <= i < |order| ensures order[i] !in ChunksOf(session, affected) { assert order[i] in order; }
  }

  // ---------------------------------------------------------------- walking the index

  /** What the rebuild works from: the rows as they were, and what they say about the correction. */
  ghost predicate Plan(g: Setting, g': Setting, session: SessionId, was: seq<IndexRow>, log: seq<Batch>,
                       changed: set<nat>, affected: set<Cell>) {
    && DiffersIn(g, g', session) && Stable(g'.voxelOf)
    && Describes(g, session, was, log) && Covers(g', session, was, log, changed)
    && Affects(g', session, was, log, changed, |was|, affected)
  }

  /** The first `n` rows have been walked: chunks, cache order and index are those of the correction. */
  ghost predicate Progress(store: ChunkStore, session: SessionId, affected: set<Cell>, base: State, was: seq<IndexRow>,
                           n: nat)
    reads store
  {
    && store.Valid() && session in store.index && store.Indexed(session, n)
    && Walked(store.setting, session, affected, base, store.Current(), n)
    && Crowd(store.setting, session, affected, store.disk.logs[session].records, store.maxDirtyChunks, store.order, n)
    && |store.index[session]| == |was| && forall j :: n <= j < |was| ==> store.index[session][j] == was[j]
  }

  /** A batch that does not span the rebuilt chunks only counts for them; the others are re-fused. */
  method WalkRow(store: ChunkStore, session: SessionId, affected: set<Cell>, changed: set<nat>, replay: bool, i: nat,
                 ghost g: Setting, ghost base: State, ghost was: seq<IndexRow>)
    requires session in base.disk.logs && i < |base.disk.logs[session].records|
    requires Plan(g, store.setting, session, was, base.disk.logs[session].records, changed, affected)
    requires Progress(store, session, affected, base, was, i)
    requires replay <==> i in changed || !(was[i].chunks !! affected)
    modifies store`disk, store`active, store`order, store`cells, store`index
    ensures Progress(store, session, affected, base, was, i + 1)
    ensures old(Saved(store.Current())) ==> Saved(store.Current())
  {
    hide Leads, FuseMem, Walked, Crowd, Confined, Affects, Progress, Plan, Saved;
    if replay {
      ReplayRow(store, session, affected, changed, i, g, base, was);
    } else {
      CountRow(store, session, affected, changed, i, g, base, was);
    }
  }

  /** Fuse a row's batch again, into the chunks being rebuilt only. */
  method ReplayRow(store: ChunkStore, session: SessionId, affected: set<Cell>, changed: set<nat>, i: nat,
                   ghost g: Setting, ghost base: State, ghost was: seq<IndexRow>)
    requires session in base.disk.logs && i < |base.disk.logs[session].records|
    requires Plan(g, store.setting, session, was, base.disk.logs[session].records, changed, affected)
    requires Progress(store, session, affected, base, was, i)
    modifies store`disk, store`active, store`order, store`cells, store`index
    ensures Progress(store, session, affected, base, was, i + 1)
    ensures old(Saved(store.Current())) ==> Saved(store.Current())
  {
    hide Leads, FuseMem, Walked, Crowd, Confined, Affects, Newest, Ranks, Keys, Gathers, ActiveAt, ChunkStore.Unsaved;
    hide Spanned, Touches, Saved;
    assert store.disk.logs == base.disk.logs
      by { WalkedLogs(store.setting, session, affected, base, store.Current(), i); }
    var b := store.disk.logs[session].records[i];
    var row := store.index[session][i];
    var pose := store.setting.effective(session, row.poseSequence, row.loggedPose);
    ghost var s, order := store.Current(), store.order;
    ListedKeys(order, store.active);
    WalkFuse(store.setting, session, affected, base, s, i, b);
    ghost var fused := State(s.disk, FuseMem(store.setting, s.disk, s.mem, session, b, Some(affected)));
    var touched, spanned;
    ghost var run, ranked;
    touched, spanned, run, ranked := store.FuseBatch(session, b, pose, true, Some(affected));
    WalkWrite(store.setting, session, affected, base, fused, i + 1, run, store.Current());
    if Saved(s) {
      FuseKeepsSaved(store.setting, s.disk, s.mem, session, b, Some(affected));
      LedSaved(store.setting, fused, run, store.Current());
    }
    CrowdFuse(store.setting, session, affected, base.disk.logs[session].records, store.maxDirtyChunks, s.disk, s.mem,
              order, i, ranked, touched);
    WalkedLogs(store.setting, session, affected, base, store.Current(), i + 1);
    if i in changed {
      store.RecordFusedBatch(session, i, b, pose, spanned);
    } else {
      UnchangedRow(g, store.setting, session, was, base.disk.logs[session].records, changed, affected, i);
    }
  }

  /** A row whose batch reaches none of the chunks being rebuilt may still count as a chance to see them. */
  method CountRow(store: ChunkStore, session: SessionId, affected: set<Cell>, changed: set<nat>, i: nat,
                  ghost g: Setting, ghost base: State, ghost was: seq<IndexRow>)
    requires session in base.disk.logs && i < |base.disk.logs[session].records|
    requires Plan(g, store.setting, session, was, base.disk.logs[session].records, changed, affected)
    requires Progress(store, session, affected, base, was, i)
    requires !(i in changed || !(was[i].chunks !! affected))
    modifies store`disk, store`active, store`order, store`cells, store`index
    ensures Progress(store, session, affected, base, was, i + 1)
    ensures old(Saved(store.Current())) ==> Saved(store.Current())
  {
    hide Leads, FuseMem, Walked, Crowd, Confined, Affects, Newest, Ranks, Keys;
    assert store.disk.logs == base.disk.logs
      by { WalkedLogs(store.setting, session, affected, base, store.Current(), i); }
    var b := store.disk.logs[session].records[i];
    var row := store.index[session][i];
    var pose := store.setting.effective(session, row.poseSequence, row.loggedPose);
    ghost var s, order := store.Current(), store.order;
    ListedKeys(order, store.active);
    Unspanned(g, store.setting, session, was, base.disk.logs[session].records, changed, affected, i);
    WalkCount(store.setting, session, affected, base, s, i, b);
    CrowdCount(store.setting, session, affected, base.disk.logs[session].records, store.maxDirtyChunks, order, i);
    store.ApplyFieldOfView(session, b.sequence, pose, Some(affected));
    CountedIsSaved(store.setting, s, session, b.sequence, pose, affected);
    UnchangedRow(g, store.setting, session, was, base.disk.logs[session].records, changed, affected, i);
    WalkedLogs(store.setting, session, affected, base, store.Current(), i + 1);
  }

  lemma CountedIsSaved(g: Setting, s: State, session: SessionId, sequence: nat, pose: Pose, affected: set<Cell>)
    ensures Saved(s) ==>
              Saved(s.(mem := s.mem.(cells := CountView(g, session, sequence, pose, Some(affected), s.mem.cells))))
  {
    if Saved(s) {
      forall k | k in s.mem.cells ensures SavedCell(s.mem.cells[k], Find(s.disk.rows, k)) {}
    }
  }

  lemma WalkedLogs(g: Setting, session: SessionId, affected: set<Cell>, base: State, s: State, n: nat)
    requires Walked(g, session, affected, base, s, n)
    ensures s.disk.logs == base.disk.logs && s.mem.tails == base.mem.tails && Confined(s)
  {
  }

  lemma UnchangedRow(g: Setting, g': Setting, session: SessionId, was: seq<IndexRow>, log: seq<Batch>,
                     changed: set<nat>, affected: set<Cell>, i: nat)
    requires Plan(g, g', session, was, log, changed, affected) && i < |log| && i !in changed
    ensures was[i] == RowFor(g', session, log[i], i)
  {
    SameLanded(g, g', PoseOf(g, session, log[i]), log[i].points, Cell(0, 0, 0));
  }

  lemma Unspanned(g: Setting, g': Setting, session: SessionId, was: seq<IndexRow>, log: seq<Batch>, changed: set<nat>,
                  affected: set<Cell>, i: nat)
    requires Plan(g, g', session, was, log, changed, affected) && i < |log| && i !in changed
             && was[i].chunks !! affected
    ensures forall k: Key :: Rebuilt(session, affected, k) ==> !Touches(g', k, log[i])
  {
    forall k: Key | Rebuilt(session, affected, k) ensures !Touches(g', k, log[i]) {
      TouchingIsReplayed(g, g', k, was, log, changed, affected, i);
    }
  }

  method WalkIndex(store: ChunkStore, session: SessionId, affected: set<Cell>, changed: set<nat>,
                   ghost g: Setting, ghost base: State, ghost was: seq<IndexRow>)
    requires session in base.disk.logs
    requires Plan(g, store.setting, session, was, base.disk.logs[session].records, changed, affected)
    requires Progress(store, session, affected, base, was, 0) && store.Current() == base
    modifies store`disk, store`active, store`order, store`cells, store`index
    ensures Progress(store, session, affected, base, was, |base.disk.logs[session].records|)
    ensures old(Saved(store.Current())) ==> Saved(store.Current())
  {
    hide Walked, Crowd, Confined, Affects, Saved;
    var rows := store.index[session];
    var replay := set i | 0 <= i < |rows| && (i in changed || !(rows[i].chunks !! affected));
    for i := 0 to |rows|
      invariant Progress(store, session, affected, base, was, i)
      invariant old(Saved(store.Current())) ==> Saved(store.Current())
    {
      WalkRow(store, session, affected, changed, i in replay, i, g, base, was);
    }
  }

  // ---------------------------------------------------------------- the end of the rebuild

  /** Every chunk holds the corrected log once; rebuilt chunks also count as they would have live. */
  ghost predicate Corrected(g: Setting, s: State, session: SessionId, affected: set<Cell>) {
    && CaughtUp(s, session)
    && forall k: Key :: k.session == session ==>
          Hosted(s, k) && CorrectedChunk(g, s.disk.logs[session].records, ChunkAt(s, k), affected, k)
  }

  ghost predicate CorrectedChunk(g: Setting, log: seq<Batch>, c: Chunk, affected: set<Cell>, k: Key) {
    && Strip(Resident(g, c).vox) == Strip(FoldAll(g, k, log).vox)
    && (k.chunk in affected && c.cell.Some? ==>
          SameSinceBirth(Content(Resident(g, c).vox, c.cell.value.opportunities, true), FoldAll(g, k, log)))
  }

  /** The registered cells are the chunks some batch touches. */
  ghost predicate Registered(g: Setting, s: State, session: SessionId)
    requires session in s.disk.logs
  {
    forall k: Key :: k.session == session ==> (k in s.mem.cells <==> FoldAll(g, k, s.disk.logs[session].records).known)
  }

  /** A rebuilt cell that holds no resident chunk no longer exists. */
  method ForgetUnpopulated(store: ChunkStore, session: SessionId, affected: set<Cell>)
    requires store.Valid()
    modifies store`cells
    ensures store.Valid()
    ensures store.cells == Kept(old(store.cells), store.active, session, affected)
    ensures old(Saved(store.Current())) ==> Saved(store.Current())
  {
    ghost var was := store.cells;
    var todo := affected;
    while todo != {}
      invariant todo <= affected && store.cells.Keys <= was.Keys
      invariant forall k :: k in was ==>
                  (k in store.cells <==> k in store.active || !Rebuilt(session, affected - todo, k))
      invariant forall k :: k in store.cells ==> store.cells[k] == was[k]
      decreases todo
    {
      var chunk :| chunk in todo;
      todo := todo - {chunk};
      if Key(session, chunk) !in store.active {
        store.cells := store.cells - {Key(session, chunk)};
      }
    }
  }

  function Kept(cells: map<Key, Stats>, active: map<Key, Active>, session: SessionId,
                affected: set<Cell>): map<Key, Stats> {
    map k | k in cells && (k in active || !Rebuilt(session, affected, k)) :: cells[k]
  }

  ghost function Forgot(s: State, session: SessionId, affected: set<Cell>): State {
    s.(mem := s.mem.(cells := Kept(s.mem.cells, s.mem.active, session, affected)))
  }

  lemma WalkedIsCorrected(g: Setting, session: SessionId, affected: set<Cell>, base: State, s: State, n: nat)
    requires Stable(g.voxelOf) && session in base.disk.logs && n == |base.disk.logs[session].records|
    requires Walked(g, session, affected, base, s, n) && session in base.mem.tails
             && base.mem.tails[session] == Tail(n, None)
    requires s.mem.active.Keys <= s.mem.cells.Keys
    ensures Inv(g, Forgot(s, session, affected)) && Corrected(g, Forgot(s, session, affected), session, affected)
    ensures forall k: Key :: Hosted(s, k) && !Rebuilt(session, affected, k) ==>
              Hosted(base, k) && SameContent(g, ChunkAt(base, k), ChunkAt(Forgot(s, session, affected), k))
  {
    var t := Forgot(s, session, affected);
    assert Confined(t);
    forall k: Key | Hosted(t, k)
      ensures ChunkOk(g, k, ChunkAt(t, k))
      ensures !Rebuilt(session, affected, k) ==> Hosted(base, k) && SameContent(g, ChunkAt(base, k), ChunkAt(t, k))
      ensures k.session == session ==> CorrectedChunk(g, t.disk.logs[session].records, ChunkAt(t, k), affected, k)
    {
      assert WalkedChunk(g, session, affected, base, s, n, k);
      ForgotChunk(g, session, affected, base, s, n, k);
      if k.session == session { CaughtUpChunk(g, k, ChunkAt(t, k)); }
    }
  }

  lemma ForgotChunk(g: Setting, session: SessionId, affected: set<Cell>, base: State, s: State, n: nat, k: Key)
    requires Stable(g.voxelOf) && Hosted(s, k) && WalkedChunk(g, session, affected, base, s, n, k)
    requires k.session == session ==> n == |s.disk.logs[session].records| && s.mem.tails[session] == Tail(n, None)
    requires s.mem.active.Keys <= s.mem.cells.Keys
    ensures var c, t := ChunkAt(s, k), Forgot(s, session, affected);
            && Hosted(t, k) && ChunkOk(g, k, ChunkAt(t, k)) && Resident(g, ChunkAt(t, k)) == Resident(g, c)
            && (!Rebuilt(session, affected, k) ==> ChunkAt(t, k) == c)
            && (Rebuilt(session, affected, k) && ChunkAt(t, k).cell.Some? ==>
                 SameSinceBirth(Content(Resident(g, c).vox, ChunkAt(t, k).cell.value.opportunities, true),
                                FoldAll(g, k, s.disk.logs[session].records)))
  {
    var c, c' := ChunkAt(s, k), ChunkAt(Forgot(s, session, affected), k);
    if Rebuilt(session, affected, k) {
      MidwayDone(g, k, c, Origin(k in base.mem.cells), k in base.mem.cells);
      assert c' == if c.resident.Some? then c else c.(cell := None);
    } else {
      assert c' == c;
    }
  }

  /** Which cells are left: every populated rebuilt chunk exactly when all of them fit in the resident budget. */
  lemma WalkedIsRegistered(g: Setting, session: SessionId, affected: set<Cell>, log: seq<Batch>, max: nat,
                           order: seq<Key>)
    requires Crowd(g, session, affected, log, max, order, |log|)
    ensures (forall c :: c in affected ==> (Key(session, c) in order <==> FoldAll(g, Key(session, c), log).known))
            <==> |Populated(g, session, affected, log)| <= max
  {
    assert log[..|log|] == log;
    var here := Populated(g, session, affected, log);
    forall k: Key
      ensures k in ChunksOf(session, affected) <==> k.session == session && k.chunk in affected
      ensures k in ChunksOf(session, here) <==> k.session == session && k.chunk in here
    {
      ChunksOfHas(session, affected, k);
      ChunksOfHas(session, here, k);
    }
    hide ChunksOf, Populated, Behind;
    assert forall c :: c in here <==> c in affected && FoldAll(g, Key(session, c), log).known
      by { PopulatedHas(g, session, affected, log); }
    if forall c :: c in affected ==> (Key(session, c) in order <==> FoldAll(g, Key(session, c), log).known) {
      if here != {} {
        forall k | k in ChunksOf(session, here) ensures k in Keys(order) { assert k == Key(session, k.chunk); }
        Subset(ChunksOf(session, here), Keys(order));
        DistinctSize(order);
        ChunksOfSize(session, here);
      }
    }
    if |here| <= max {
      forall c | c in affected ensures Key(session, c) in order <==> FoldAll(g, Key(session, c), log).known {
        assert Key(session, c) in Keys(order) <==> Key(session, c) in order;
      }
    }
  }

  lemma PopulatedHas(g: Setting, session: SessionId, affected: set<Cell>, log: seq<Batch>)
    ensures forall c :: c in Populated(g, session, affected, log) <==>
                          c in affected && FoldAll(g, Key(session, c), log).known
  {
  }

  lemma AdjustedIsConfined(before: State, adjusted: State)
    requires Confined(before) && adjusted.disk == before.disk
             && adjusted.mem == before.mem.(cells := adjusted.mem.cells)
    requires adjusted.mem.cells.Keys == before.mem.cells.Keys
    ensures Confined(adjusted)
  {
  }

  lemma StartedFromAdjusted(before: State, adjusted: State, base: State, session: SessionId, affected: set<Cell>)
    requires Started(adjusted, base, session, affected)
    requires adjusted.disk == before.disk && adjusted.mem == before.mem.(cells := adjusted.mem.cells)
    requires adjusted.mem.cells.Keys == before.mem.cells.Keys
    requires forall k :: k in before.mem.cells && k.session != session ==> adjusted.mem.cells[k] == before.mem.cells[k]
    ensures Started(before, base, session, affected)
  {
  }

  /** The closing checkpoint moves content between memory and disk only. */
  lemma CheckpointKeepsCorrected(g: Setting, s: State, run: seq<Step>, t: State, session: SessionId,
                                 affected: set<Cell>)
    requires Stable(g.voxelOf) && Inv(g, s) && Corrected(g, s, session, affected)
    requires Leads(g, s, run, t) && AllKeep(run) && CaughtUp(t, session)
    requires session in s.disk.logs && session in t.disk.logs
             && t.disk.logs[session].records == s.disk.logs[session].records
    ensures Inv(g, t) && Corrected(g, t, session, affected)
    ensures forall k: Key :: Hosted(s, k) ==> Hosted(t, k) && SameContent(g, ChunkAt(s, k), ChunkAt(t, k))
  {
    RunKeepsInv(g, s, run);
    forall k: Key | Hosted(s, k)
      ensures Hosted(t, k) && SameContent(g, ChunkAt(s, k), ChunkAt(t, k))
    {
      ChunkOkIsCoherent(g, k, ChunkAt(s, k));
      KeepsContent(g, s, run, t, k);
    }
    hide Leads;
    assert forall k: Key :: k.session == session ==> Hosted(s, k) && Hosted(t, k);
  }

  /** A chunk's content is the same from before the rebuild to after it. */
  lemma ContentLeftAlone(g: Setting, before: State, base: State, forgot: State, s: State, session: SessionId,
                         affected: set<Cell>, k: Key)
    requires Started(before, base, session, affected) && !Rebuilt(session, affected, k)
    requires forgot.disk.logs.Keys == base.disk.logs.Keys && forgot.mem.tails.Keys == base.mem.tails.Keys
    requires Hosted(base, k) && Hosted(forgot, k) && SameContent(g, ChunkAt(base, k), ChunkAt(forgot, k))
    requires Hosted(s, k) && SameContent(g, ChunkAt(forgot, k), ChunkAt(s, k))
    ensures Hosted(before, k) && Resident(g, ChunkAt(s, k)).vox == Resident(g, ChunkAt(before, k)).vox
    ensures k in s.mem.cells <==> k in before.mem.cells
    ensures k in s.mem.cells ==> k in base.mem.cells && s.mem.cells[k].opportunities == base.mem.cells[k].opportunities
    ensures k in s.mem.cells && k.session != session ==> base.mem.cells[k] == before.mem.cells[k]
  {
    assert Resident(g, ChunkAt(base, k)) == Resident(g, ChunkAt(before, k));
    assert k in s.mem.cells ==> ChunkLife.Counters(ChunkAt(s, k)) == s.mem.cells[k];
    assert k in base.mem.cells ==> ChunkLife.Counters(ChunkAt(base, k)) == base.mem.cells[k];
  }

  /** The registry after the rebuild, when it was right before. */
  lemma RegistryAfter(g: Setting, g': Setting, before: State, s: State, session: SessionId, rows: seq<IndexRow>,
                      changed: set<nat>,
                      affected: set<Cell>, order: seq<Key>, max: nat)
    requires session in before.disk.logs && session in s.disk.logs
    requires var log := before.disk.logs[session].records;
             && s.disk.logs[session].records == log && Increasing(log)
             && Plan(g, g', session, rows, log, changed, affected)
             && Crowd(g', session, affected, log, max, order, |log|)
    requires Registered(g, before, session)
    requires forall k: Key :: k.session == session ==>
               if k.chunk in affected then k in s.mem.cells <==> k in order
                   else k in s.mem.cells <==> k in before.mem.cells
    ensures Registered(g', s, session) <==> |Populated(g', session, affected, before.disk.logs[session].records)| <= max
  {
    hide Affects, Covers, Describes, Crowd;
    var log := before.disk.logs[session].records;
    WalkedIsRegistered(g', session, affected, log, max, order);
    forall k: Key | k.session == session && k.chunk !in affected
      ensures k in s.mem.cells <==> FoldAll(g', k, log).known
    {
      UnaffectedSamePoints(g, g', k, rows, log, changed, affected);
      SamePointsSameVoxels(g, g', k, log, Position(log, |log|));
      HistoryIsFold(g, k, log, Position(log, |log|));
      HistoryIsFold(g', k, log, Position(log, |log|));
    }
    forall c | c in affected ensures Key(session, c) in s.mem.cells <==> Key(session, c) in order {
      assert Key(session, c).session == session;
    }
    assert forall k: Key :: k.session == session ==> k == Key(session, k.chunk);
  }

  /** Nothing about a chunk that is left alone changes but its opportunity count. */
  ghost predicate LeftAlone(g: Setting, before: State, s: State, session: SessionId, affected: set<Cell>) {
    forall k: Key :: Hosted(s, k) && !Rebuilt(session, affected, k) ==>
      && Hosted(before, k)
      && Resident(g, ChunkAt(s, k)).vox == Resident(g, ChunkAt(before, k)).vox
      && (k in s.mem.cells <==> k in before.mem.cells)
      && (k.session != session && k in s.mem.cells ==>
            s.mem.cells[k].opportunities == before.mem.cells[k].opportunities)
  }

  /** Work out what is affected, adjust the counters of the rest, and drop the affected chunks. */
  method StartRebuild(store: ChunkStore, session: SessionId, corrected: Setting, changed: set<nat>)
    returns (affected: set<Cell>, ghost adjusted: State)
    requires store.Valid() && Inv(store.setting, store.Current()) && CaughtUp(store.Current(), session)
    requires session in store.index && DiffersIn(store.setting, corrected, session) && Stable(corrected.voxelOf)
    requires Describes(store.setting, session, store.index[session], store.disk.logs[session].records)
    requires Covers(corrected, session, store.index[session], store.disk.logs[session].records, changed)
    modifies store`setting, store`disk, store`active, store`order, store`cells, store`tails
    ensures store.setting == corrected
    ensures session in old(store.disk).logs && session in store.disk.logs && session in store.tails
    ensures store.disk.logs[session].records == old(store.disk).logs[session].records
    ensures store.disk.logs == old(store.disk).logs[session := old(store.disk).logs[session].(checkpoint := 0)]
    ensures store.tails[session] == Tail(|old(store.disk).logs[session].records|, None)
    ensures Plan(old(store.setting), corrected, session, store.index[session], old(store.disk).logs[session].records,
                 changed, affected)
    ensures Started(old(store.Current()), store.Current(), session, affected)
    ensures old(Saved(store.Current())) ==> Saved(store.Current())
    ensures Progress(store, session, affected, store.Current(), store.index[session], 0)
    ensures forall k :: k in store.cells && !Rebuilt(session, affected, k) ==>
              k in adjusted.mem.cells && store.cells[k] == adjusted.mem.cells[k]
    ensures adjusted.mem.cells.Keys == old(store.cells).Keys
    ensures forall k :: k in adjusted.mem.cells ==>
              adjusted.mem.cells[k] == Adjusted(corrected, session, store.index[session], changed, affected,
                                                |store.index[session]|, k, old(store.cells)[k])
  {
    hide Walked, Crowd, Confined, Affects, Describes, Covers, Inv, SavedCell;
    ghost var g, before, was := store.setting, store.Current(), store.index[session];
    ghost var log := store.disk.logs[session].records;
    assert |was| == |log| by { DescribesAll(g, session, was, log); }
    store.setting := corrected;
    affected := AffectedChunks(store, session, changed);
    AdjustViews(store, session, changed, affected);
    adjusted := store.Current();
    AdjustedIsConfined(before, adjusted);
    if Saved(before) {
      forall k | k in adjusted.mem.cells ensures SavedCell(adjusted.mem.cells[k], Find(adjusted.disk.rows, k)) {
        AdjustedIsSaved(corrected, session, was, changed, affected, |was|, k, before.mem.cells[k],
                        Find(before.disk.rows, k));
      }
    }
    DropAffected(store, session, affected);
    StartedFromAdjusted(before, adjusted, store.Current(), session, affected);
    StartedIsWalked(g, corrected, before, store.Current(), session, was, changed, affected);
    NothingPopulated(corrected, session, affected, log, store.maxDirtyChunks, store.order);
  }

  lemma DescribesAll(g: Setting, session: SessionId, rows: seq<IndexRow>, log: seq<Batch>)
    requires Describes(g, session, rows, log)
    ensures |rows| == |log|
  {
  }

  /** From the start of the walk to the closing checkpoint. */
  lemma Concluded(g: Setting, g': Setting, before: State, adjusted: State, base: State, walked: State, sweep: seq<Step>,
                  s: State,
                  session: SessionId, rows: seq<IndexRow>, changed: set<nat>, affected: set<Cell>, order: seq<Key>,
                      max: nat)
    requires CaughtUp(before, session) && Started(before, base, session, affected)
             && Increasing(before.disk.logs[session].records)
    requires var log := before.disk.logs[session].records;
             && Plan(g, g', session, rows, log, changed, affected)
             && Walked(g', session, affected, base, walked, |log|)
             && Crowd(g', session, affected, log, max, order, |log|)
    requires base.mem.tails[session] == Tail(|before.disk.logs[session].records|, None)
    requires walked.mem.active.Keys <= walked.mem.cells.Keys && (forall k :: k in order <==> k in walked.mem.active)
    requires forall k :: k in base.mem.cells && !Rebuilt(session, affected, k) ==>
               k in adjusted.mem.cells && base.mem.cells[k] == adjusted.mem.cells[k]
    requires Leads(g', Forgot(walked, session, affected), sweep, s) && AllKeep(sweep)
    requires CaughtUp(s, session) && s.disk.logs[session].records == before.disk.logs[session].records
    requires s.disk.logs.Keys == before.disk.logs.Keys
    ensures Inv(g', s) && Corrected(g', s, session, affected)
    ensures LeftAlone(g', before, s, session, affected)
    ensures forall k: Key :: k.session == session && k.chunk !in affected && k in s.mem.cells ==>
              && k in before.mem.cells && k in adjusted.mem.cells
              && s.mem.cells[k].opportunities == adjusted.mem.cells[k].opportunities
    ensures Registered(g, before, session) ==>
              (Registered(g', s, session)
               <==> |Populated(g', session, affected, before.disk.logs[session].records)| <= max)
  {
    hide Crowd, Leads, Corrected, Started, Registered, Plan, Inv, Walked;
    var log, forgot := before.disk.logs[session].records, Forgot(walked, session, affected);
    assert Stable(g'.voxelOf) by { PlanSays(g, g', session, rows, log, changed, affected); }
    WalkedLogs(g', session, affected, base, walked, |log|);
    StartedLogs(before, base, session, affected);
    WalkedIsCorrected(g', session, affected, base, walked, |log|);
    CheckpointKeepsCorrected(g', forgot, sweep, s, session, affected);
    assert Confined(s) by { InvIsConfined(g', s); }
    ConcludedChunks(g', before, base, forgot, s, session, affected);
    if Registered(g, before, session) {
      forall k: Key | k.session == session
        ensures if k.chunk in affected then k in s.mem.cells <==> k in order
                else k in s.mem.cells <==> k in before.mem.cells
      {
        assert Hosted(s, k) && Hosted(forgot, k);
        assert k in s.mem.cells <==> k in forgot.mem.cells;
      }
      RegistryAfter(g, g', before, s, session, rows, changed, affected, order, max);
    }
  }

  lemma PlanSays(g: Setting, g': Setting, session: SessionId, was: seq<IndexRow>, log: seq<Batch>, changed: set<nat>,
                 affected: set<Cell>)
    requires Plan(g, g', session, was, log, changed, affected)
    ensures Stable(g'.voxelOf) && |was| == |log| && Affects(g', session, was, log, changed, |was|, affected)
  {
  }

  lemma InvIsConfined(g: Setting, s: State)
    requires Inv(g, s)
    ensures Confined(s)
  {
  }

  lemma StartedLogs(before: State, s: State, session: SessionId, affected: set<Cell>)
    requires Started(before, s, session, affected)
    ensures session in before.disk.logs
    ensures s.disk.logs == before.disk.logs[session := before.disk.logs[session].(checkpoint := 0)]
    ensures s.disk.logs.Keys == before.disk.logs.Keys
  {
  }

  lemma InvIncreasing(g: Setting, s: State, session: SessionId)
    requires Inv(g, s) && session in s.disk.logs
    ensures Increasing(s.disk.logs[session].records)
  {
    assert ChunkOk(g, Key(session, Cell(0, 0, 0)), ChunkAt(s, Key(session, Cell(0, 0, 0))));
  }

  lemma ConcludedChunks(g: Setting, before: State, base: State, forgot: State, s: State, session: SessionId,
                        affected: set<Cell>)
    requires Started(before, base, session, affected) && Confined(s) && Confined(forgot)
    requires forgot.disk.logs == base.disk.logs && forgot.mem.tails == base.mem.tails
    requires forall k: Key :: Hosted(forgot, k) && !Rebuilt(session, affected, k) ==>
               Hosted(base, k) && SameContent(g, ChunkAt(base, k), ChunkAt(forgot, k))
    requires forall k: Key :: Hosted(forgot, k) ==> Hosted(s, k) && SameContent(g, ChunkAt(forgot, k), ChunkAt(s, k))
    requires s.disk.logs.Keys == base.disk.logs.Keys
    ensures LeftAlone(g, before, s, session, affected)
    ensures forall k: Key :: Hosted(s, k) && !Rebuilt(session, affected, k) && k in s.mem.cells ==>
              k in base.mem.cells && s.mem.cells[k].opportunities == base.mem.cells[k].opportunities
  {
    forall k: Key | Hosted(s, k) && !Rebuilt(session, affected, k)
      ensures Hosted(before, k) && Resident(g, ChunkAt(s, k)).vox == Resident(g, ChunkAt(before, k)).vox
      ensures k in s.mem.cells <==> k in before.mem.cells
      ensures k in s.mem.cells ==>
                k in base.mem.cells && s.mem.cells[k].opportunities == base.mem.cells[k].opportunities
      ensures k in s.mem.cells && k.session != session ==>
                s.mem.cells[k].opportunities == before.mem.cells[k].opportunities
    {
      assert Hosted(forgot, k) && Hosted(base, k);
      ContentLeftAlone(g, before, base, forgot, s, session, affected, k);
    }
  }

  /**
   * Rebuild only the chunks the changed batches used to span or now span, from the batches that
   * span them. Every chunk ends up with the voxels, order and sums of the corrected log, and the
   * registered cells are right exactly when the populated rebuilt chunks fit the resident budget.
   */
  method RebuildBatches(store: ChunkStore, session: SessionId, corrected: Setting, changed: set<nat>)
    returns (affected: set<Cell>)
    requires store.Valid() && Inv(store.setting, store.Current()) && CaughtUp(store.Current(), session)
    requires session in store.index && DiffersIn(store.setting, corrected, session) && Stable(corrected.voxelOf)
    requires Describes(store.setting, session, store.index[session], store.disk.logs[session].records)
    requires Covers(corrected, session, store.index[session], store.disk.logs[session].records, changed)
    modifies store
    ensures store.Valid() && store.setting == corrected && Inv(corrected, store.Current())
    ensures session in store.disk.logs && session in old(store.disk).logs
    ensures store.disk.logs[session]
            == old(store.disk).logs[session].(checkpoint := |old(store.disk).logs[session].records|)
    ensures Affects(corrected, session, old(store.index)[session], store.disk.logs[session].records, changed,
                    |old(store.index)[session]|, affected)
    ensures Corrected(corrected, store.Current(), session, affected)
    ensures old(Saved(store.Current())) ==> Saved(store.Current())
    ensures LeftAlone(corrected, old(store.Current()), store.Current(), session, affected)
    ensures old(Registered(store.setting, store.Current(), session)) ==>
              (Registered(corrected, store.Current(), session)
               <==> |Populated(corrected, session, affected, store.disk.logs[session].records)| <= store.maxDirtyChunks)
    ensures forall k: Key :: k.session == session && k.chunk !in affected && k in store.cells ==>
              && k in old(store.cells)
              && store.cells[k].opportunities
                 == Adjusted(corrected, session, old(store.index)[session], changed, affected,
                             |old(store.index)[session]|, k,
                             old(store.cells)[k]).opportunities
    ensures session in store.index
            && Describes(corrected, session, store.index[session], store.disk.logs[session].records)
  {
    hide Walked, Crowd, Confined, Leads, Affects, Started, Corrected, Registered, Plan, Inv, Describes, Covers,
        LeftAlone, Adjusted, Saved;
    ghost var g, before, was := store.setting, store.Current(), store.index[session];
    ghost var log := store.disk.logs[session].records;
    InvIncreasing(g, before, session);
    ghost var adjusted;
    affected, adjusted := StartRebuild(store, session, corrected, changed);
    ghost var base := store.Current();
    WalkIndex(store, session, affected, changed, g, base, was);
    ghost var walked, order := store.Current(), store.order;
    WalkedLogs(corrected, session, affected, base, walked, |log|);
    ForgetUnpopulated(store, session, affected);
    PlanSays(g, corrected, session, was, log, changed, affected);
    WalkedIsCorrected(corrected, session, affected, base, walked, |log|);
    var done;
    ghost var sweep;
    ghost var forgot := store.Current();
    done, sweep := store.CheckpointSession(session, None);
    if Saved(forgot) { LedSaved(corrected, forgot, sweep, store.Current()); }
    Concluded(g, corrected, before, adjusted, base, walked, sweep, store.Current(), session, was, changed, affected,
              order, store.maxDirtyChunks);
    IndexedDescribes(store, session, was);
  }

  lemma IndexedDescribes(store: ChunkStore, session: SessionId, was: seq<IndexRow>)
    requires store.Indexed(session, |was|) && |store.index[session]| == |was| == |store.disk.logs[session].records|
    ensures Describes(store.setting, session, store.index[session], store.disk.logs[session].records)
  {
  }

  // ---------------------------------------------------------------- partial against full

  /** A partial rebuild agrees with re-fusing everything: voxels, order, sums, and counts since birth. */
  lemma PartialEqualsFull(g: Setting, full: State, part: State, session: SessionId, affected: set<Cell>, k: Key)
    requires Exact(g, full, session) && Corrected(g, part, session, affected) && k.session == session
    requires full.disk.logs[session].records == part.disk.logs[session].records
    ensures Hosted(full, k) && Hosted(part, k)
    ensures var a, b := ChunkAt(full, k), ChunkAt(part, k);
            && Strip(Resident(g, a).vox) == Strip(Resident(g, b).vox)
            && (k.chunk in affected && k in full.mem.cells && k in part.mem.cells ==>
                 SameSinceBirth(Content(Resident(g, a).vox, full.mem.cells[k].opportunities, true),
                                Content(Resident(g, b).vox, part.mem.cells[k].opportunities, true)))
            && (Registered(g, part, session) ==> (k in full.mem.cells <==> k in part.mem.cells))
  {
    assert ExactChunk(FoldAll(g, k, full.disk.logs[session].records), g, ChunkAt(full, k));
    assert CorrectedChunk(g, part.disk.logs[session].records, ChunkAt(part, k), affected, k);
  }

  datatype Mode = Unchanged | Full | Partial(affected: set<Cell>)

  /** Rows whose batch would now be fused somewhere else. */
  function Moved(g: Setting, session: SessionId, rows: seq<IndexRow>, differs: (Pose, Pose) -> bool): set<nat> {
    set i | 0 <= i < |rows|
        && differs(rows[i].fusedPose, g.effective(session, rows[i].poseSequence, rows[i].loggedPose))
  }

  /**
   * Apply a pose correction: nothing when no batch moved, the affected chunks when at most half of
   * them did, everything otherwise. Every chunk then holds the corrected log once, except that
   * re-fusing everything cannot correct a sidecar it does not find.
   */
  method RebuildChanged(store: ChunkStore, session: SessionId, corrected: Setting, differs: (Pose, Pose) -> bool)
    returns (mode: Mode)
    requires store.Valid() && AllOrderly(store.setting, store.Current())
    requires session in store.disk.logs && session in store.index
    requires DiffersIn(store.setting, corrected, session) && Stable(corrected.voxelOf)
    requires var rows := store.index[session];
             var changed := set i | 0 <= i < |rows| && differs(rows[i].fusedPose,
                                      corrected.effective(session, rows[i].poseSequence, rows[i].loggedPose));
             |rows| > 0 && |changed| * 2 <= |rows| ==>
               && Inv(store.setting, store.Current()) && CaughtUp(store.Current(), session)
               && Describes(store.setting, session, rows, store.disk.logs[session].records)
               && forall i :: 0 <= i < |rows| && i !in changed ==>
                    rows[i].fusedPose == corrected.effective(session, rows[i].poseSequence, rows[i].loggedPose)
    modifies store
    ensures store.Valid() && store.setting == corrected && session in old(store.disk).logs
    ensures Corrected(corrected, store.Current(), session, if mode.Partial? then mode.affected else {})
            <==> (mode.Full? ==> LeftoversMatch(corrected, old(store.Current()), session))
    ensures old(OkElsewhere(store.setting, store.Current(), session)) ==>
              (Inv(corrected, store.Current())
               <==> (mode.Full? ==> LeftoversMatch(corrected, old(store.Current()), session)))
    ensures AllOrderly(corrected, store.Current()) && session in store.index && session in store.disk.logs
    ensures Describes(corrected, session, store.index[session], store.disk.logs[session].records)
    ensures var rows := old(store.index)[session];
            var changed := set i | 0 <= i < |rows| && differs(rows[i].fusedPose,
                                     corrected.effective(session, rows[i].poseSequence, rows[i].loggedPose));
            && (mode.Full? <==> |rows| == 0 || |changed| * 2 > |rows|)
            && (mode.Partial? ==> |rows| == |store.disk.logs[session].records|)
            && (mode.Partial? ==> Affects(corrected, session, rows, store.disk.logs[session].records, changed, |rows|,
                                          mode.affected))
    ensures |old(store.index)[session]| > 0 ==>
              (mode.Unchanged? <==> forall row :: row in old(store.index)[session] ==>
                 !differs(row.fusedPose, corrected.effective(session, row.poseSequence, row.loggedPose)))
    ensures mode.Partial? && old(Registered(store.setting, store.Current(), session)) ==>
              (Registered(corrected, store.Current(), session)
               <==> |Populated(corrected, session, mode.affected, store.disk.logs[session].records)|
                    <= store.maxDirtyChunks)
    ensures mode.Full? && NoOrphans(old(store.Current()), session) ==> Exact(corrected, store.Current(), session)
    ensures mode.Unchanged? ==> store.Current() == old(store.Current())
  {
    hide Exact, Corrected, Inv, Describes, Covers, LeftAlone, Confined, Leads, Affects, Registered;
    hide NoOrphans, LeftoversMatch, Restored, RebuiltChunk, AllOrderly, OkElsewhere;
    ghost var before := store.Current();
    var rows := store.index[session];
    var changed := Moved(corrected, session, rows, differs);
    ghost var log := store.disk.logs[session].records;
    assert |changed| > 0 <==> exists i :: i in changed;
    if |rows| > 0 && |changed| * 2 <= |rows| {
      CoversWhatStayed(store.setting, corrected, session, rows, log, changed);
    }
    if |rows| == 0 {
      mode := Full;
      RebuildSession(store, session, corrected);
      RestoredIsCorrected(corrected, store.Current(), session);
      IndexedDescribes(store, session, store.index[session]);
    } else if |changed| == 0 {
      mode := Unchanged;
      NothingMoved(store.setting, corrected, before, session, rows);
      store.setting := corrected;
      InvIsOrderly(corrected, store.Current());
    } else if |changed| * 2 > |rows| {
      mode := Full;
      RebuildSession(store, session, corrected);
      RestoredIsCorrected(corrected, store.Current(), session);
      IndexedDescribes(store, session, store.index[session]);
    } else {
      var affected := RebuildBatches(store, session, corrected, changed);
      mode := Partial(affected);
      InvIsOrderly(corrected, store.Current());
    }
  }

  /** Rows whose fused pose is already the new one are batches a correction leaves where they are. */
  lemma CoversWhatStayed(g: Setting, g': Setting, session: SessionId, rows: seq<IndexRow>, log: seq<Batch>,
                         changed: set<nat>)
    requires Describes(g, session, rows, log)
    requires forall i :: 0 <= i < |rows| && i !in changed ==>
               rows[i].fusedPose == g'.effective(session, rows[i].poseSequence, rows[i].loggedPose)
    ensures Covers(g', session, rows, log, changed)
  {
  }

  /** A correction applied again finds nothing to do. */
  method CorrectAgain(store: ChunkStore, session: SessionId, differs: (Pose, Pose) -> bool) returns (mode: Mode)
    requires store.Valid() && Inv(store.setting, store.Current()) && CaughtUp(store.Current(), session)
    requires session in store.index && Stable(store.setting.voxelOf)
    requires Describes(store.setting, session, store.index[session], store.disk.logs[session].records)
    requires |store.index[session]| > 0 && forall p :: !differs(p, p)
    modifies store
    ensures mode.Unchanged? && store.Current() == old(store.Current())
  {
    hide Inv, Corrected, Spanned, AllOrderly, OkElsewhere, LeftoversMatch, Exact, Registered, Affects;
    InvIsOrderly(store.setting, store.Current());
    FusedWhereTheyBelong(store.setting, session, store.index[session], store.disk.logs[session].records);
    mode := RebuildChanged(store, session, store.setting, differs);
  }

  lemma FusedWhereTheyBelong(g: Setting, session: SessionId, rows: seq<IndexRow>, log: seq<Batch>)
    requires Describes(g, session, rows, log)
    ensures forall row :: row in rows ==> row.fusedPose == g.effective(session, row.poseSequence, row.loggedPose)
  {
  }

  lemma RestoredIsCorrected(g: Setting, s: State, session: SessionId)
    requires session in s.disk.logs
    ensures Restored(g, s, session, s.disk.logs[session].records) <==> Corrected(g, s, session, {})
  {
    hide Strip, FoldFrom, SameSinceBirth;
  }

  lemma NothingMoved(g: Setting, g': Setting, s: State, session: SessionId, rows: seq<IndexRow>)
    requires Inv(g, s) && CaughtUp(s, session) && DiffersIn(g, g', session)
    requires var log := s.disk.logs[session].records;
             Describes(g, session, rows, log) && Covers(g', session, rows, log, {})
    ensures Inv(g', s) && Corrected(g', s, session, {})
    ensures Describes(g', session, rows, s.disk.logs[session].records)
  {
    var log := s.disk.logs[session].records;
    forall k: Key | Hosted(s, k)
      ensures ChunkOk(g', k, ChunkAt(s, k))
    {
      if k.session == session {
        UnaffectedSamePoints(g, g', k, rows, log, {}, {});
        CorrectedKeepsChunk(g, g', k, ChunkAt(s, k), ChunkAt(s, k));
      } else {
        ChunkOkElsewhere(g, g', session, k, ChunkAt(s, k));
      }
    }
    forall k: Key | k.session == session
      ensures Hosted(s, k) && CorrectedChunk(g', log, ChunkAt(s, k), {}, k)
    {
      assert Hosted(s, k);
      CaughtUpChunk(g', k, ChunkAt(s, k));
    }
    forall i | 0 <= i < |rows| ensures rows[i] == RowFor(g', session, log[i], i) {
      SameLanded(g, g', PoseOf(g, session, log[i]), log[i].points, Cell(0, 0, 0));
    }
  }
}
