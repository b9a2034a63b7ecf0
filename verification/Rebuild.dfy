/** Re-fusing a session under corrected poses: wholesale, or only what a correction moved. */
module Rebuild {
  import opened Voxels
  import opened LogHistory
  import opened StoreMachine
  import opened ChunkLife
  import opened StoreSafety
  import opened Recovery
  import opened Counters
  import opened Residency
  import opened WriteBack
  import opened RebuildSpec
  import opened ChunkStores

  // ---------------------------------------------------------------- changing the corrections

  /** A correction of one session leaves the other sessions' chunks in order. */
  lemma ChunkOkElsewhere(g: Setting, g': Setting, session: SessionId, k: Key, c: Chunk)
    requires DiffersIn(g, g', session) && k.session != session && ChunkOk(g, k, c)
    ensures ChunkOk(g', k, c)
  {
    var log := c.log.records;
    forall a: nat {
      OtherSessionSame(g, g', session, k, log, a);
    }
    OtherSessionSame(g, g', session, k, log, 0);
    assert forall i :: 0 <= i < |log| ==> Touches(g, k, log[i]) == Touches(g', k, log[i]);
    forall a: nat, b: nat ensures Quiet(g, k, log, a, b) == Quiet(g', k, log, a, b) {}
    assert FromFile(g, c.file) == FromFile(g', c.file);
  }

  /** Nor its counters. */
  lemma CountersOkElsewhere(g: Setting, g': Setting, session: SessionId, k: Key, c: Chunk)
    requires DiffersIn(g, g', session) && k.session != session && ChunkOk(g, k, c) && CountersOk(g, k, c)
    ensures ChunkOk(g', k, c) && CountersOk(g', k, c)
  {
    ChunkOkElsewhere(g, g', session, k, c);
    hide ChunkOk;
    var log := c.log.records;
    forall a: nat ensures At(g, k, c, a) == At(g', k, c, a) {
      OtherSessionSame(g, g', session, k, log, a);
    }
    OtherSessionSame(g, g', session, k, log, 0);
    assert forall i :: 0 <= i < |log| ==> Touches(g, k, log[i]) == Touches(g', k, log[i]);
    forall a: nat, b: nat ensures Quiet(g, k, log, a, b) == Quiet(g', k, log, a, b) {}
    hide Quiet, History;
    assert c.cell.Some? ==> CellOk(g, k, c) == CellOk(g', k, c);
    assert c.row.Some? ==> RowOk(g, k, c) == RowOk(g', k, c);
  }

  // ---------------------------------------------------------------- states a rebuild can start from

  /** A chunk whose log is in order and whose copies agree, whatever they hold of the log. */
  ghost predicate Orderly(g: Setting, c: Chunk) {
    && LogOk(c.log, c.tail) && Coherent(g, c)
    && FileApplied(c) <= Position(c.log.records, |c.log.records|)
    && MemApplied(c) <= Position(c.log.records, |c.log.records|)
  }

  /** Weaker than the store's invariant: a rebuild that keeps a wrong sidecar leaves this, but not that. */
  ghost predicate AllOrderly(g: Setting, s: State) {
    Confined(s) && forall k: Key :: Hosted(s, k) ==> Orderly(g, ChunkAt(s, k))
  }

  lemma InvIsOrderly(g: Setting, s: State)
    requires Inv(g, s)
    ensures AllOrderly(g, s)
  {
    forall k: Key | Hosted(s, k) ensures Orderly(g, ChunkAt(s, k)) {
      ChunkOkIsCoherent(g, k, ChunkAt(s, k));
    }
  }

  lemma FuseKeepsCoherent(g: Setting, k: Key, c: Chunk, b: Batch)
    requires Stable(g.voxelOf) && Coherent(g, c) && b.sequence > 0
    ensures Coherent(g, FuseChunk(g, k, c, b))
    ensures MemApplied(FuseChunk(g, k, c, b)) == MemApplied(c) || MemApplied(FuseChunk(g, k, c, b)) == b.sequence
  {
    var a, o := Resident(g, c), ChunkLife.Counters(FuseChunk(g, k, c, b)).opportunities;
    assert a.applied == MemApplied(c) && WellKeyed(g.voxelOf, a.vox);
    AddPointsWellKeyed(g.voxelOf, a.vox, LandedIn(g, k, b), o);
    if Touches(g, k, b) { AddPointsNonEmpty(g.voxelOf, a.vox, LandedIn(g, k, b), o); }
  }

  lemma CrashKeepsOrderly(g: Setting, k: Key, c: Chunk, step: Step)
    requires Orderly(g, c) && LocalLegal(k, c, step) && IsCrash(step)
    ensures Orderly(g, Local(g, k, c, step))
  {
    if step.CrashInPersist? && step.key == k { ReloadIdentity(g.voxelOf, c.resident.value.vox); }
  }

  /** Every step of the store keeps it, crashes included. */
  lemma StepKeepsOrderly(g: Setting, k: Key, c: Chunk, step: Step)
    requires Stable(g.voxelOf) && Orderly(g, c) && LocalLegal(k, c, step)
    ensures Orderly(g, Local(g, k, c, step))
  {
    var log := c.log.records;
    if step.Fuse? {
      if step.session == k.session {
        FuseKeepsCoherent(g, k, c, log[c.tail.fused]);
        PositionGrows(log, c.tail.fused + 1, |log|);
      }
    } else if step.Append? {
      if step.session == k.session { AppendKeepsIncreasing(log, step.batch); }
    } else if IsCrash(step) {
      CrashKeepsOrderly(g, k, c, step);
    } else if Keeps(step) {
      WriteStepKeepsContent(g, k, c, step);
      hide Coherent, SameContent;
    }
  }

  lemma {:induction false} RunKeepsOrderly(g: Setting, s: State, run: seq<Step>)
    requires Stable(g.voxelOf) && AllOrderly(g, s) && Exec(g, s, run).Some?
    ensures AllOrderly(g, Exec(g, s, run).value)
    decreases |run|
  {
    if |run| > 0 {
      RunKeepsOrderly(g, s, run[..|run| - 1]);
      var u, step := Exec(g, s, run[..|run| - 1]).value, run[|run| - 1];
      StepKeepsConfined(g, u, step);
      forall k: Key | Hosted(Apply(g, u, step), k) ensures Orderly(g, ChunkAt(Apply(g, u, step), k)) {
        StepIsLocal(g, u, step, k);
        if Hosted(u, k) { StepKeepsOrderly(g, k, ChunkAt(u, k), step); }
      }
    }
  }

  // ---------------------------------------------------------------- sidecars a rebuild leaves behind

  /** A chunk with a sidecar but no row: the deletion goes by row and misses it. */
  ghost predicate Orphaned(s: State, session: SessionId, k: Key) {
    k.session == session && k in s.disk.acc && k !in s.disk.rows
  }

  ghost predicate NoOrphans(s: State, session: SessionId) {
    forall k: Key :: !Orphaned(s, session, k)
  }

  /** What a chunk is seeded from once the session's rows and their files are gone. */
  function Leftover(g: Setting, s: State, k: Key): Active {
    FromFile(g, if k in s.disk.rows then None else Find(s.disk.acc, k))
  }

  /** Voxels from which replay adds only the records past the sequence they already hold. */
  function Resumed(g: Setting, k: Key, seed: Active, log: seq<Batch>): VoxelMap {
    if |log| == 0 then seed.vox
    else
      var before := Resumed(g, k, seed, log[..|log| - 1]);
      var b := log[|log| - 1];
      if b.sequence <= seed.applied then before else AddPoints(g.voxelOf, before, LandedIn(g, k, b), 0)
  }

  /** What each leftover sidecar holds is what the corrected log holds up to its sequence. */
  ghost predicate LeftoversMatch(g: Setting, s: State, session: SessionId)
    requires session in s.disk.logs
  {
    forall k: Key :: Orphaned(s, session, k) ==> Matches(g, k, Leftover(g, s, k), s.disk.logs[session].records)
  }

  ghost predicate Matches(g: Setting, k: Key, seed: Active, log: seq<Batch>) {
    Strip(seed.vox) == Strip(History(g, k, log, seed.applied).vox)
  }

  lemma {:induction false} ResumedPast(g: Setting, k: Key, seed: Active, log: seq<Batch>)
    requires Increasing(log) && (|log| == 0 || log[|log| - 1].sequence <= seed.applied)
    ensures Resumed(g, k, seed, log) == seed.vox
    decreases |log|
  {
    if |log| > 0 {
      ResumedPast(g, k, seed, log[..|log| - 1]);
    }
  }

  lemma {:induction false} ResumedWellKeyed(g: Setting, k: Key, seed: Active, log: seq<Batch>)
    requires Stable(g.voxelOf) && WellKeyed(g.voxelOf, seed.vox)
    ensures WellKeyed(g.voxelOf, Resumed(g, k, seed, log))
    decreases |log|
  {
    if |log| > 0 {
      var init := log[..|log| - 1];
      ResumedWellKeyed(g, k, seed, init);
      AddPointsWellKeyed(g.voxelOf, Resumed(g, k, seed, init), LandedIn(g, k, log[|log| - 1]), 0);
    }
  }

  /** Resuming from a sidecar ends where fusing the whole log does exactly when the sidecar matches the log. */
  lemma {:induction false} ResumedIsFoldIffMatches(g: Setting, k: Key, seed: Active, log: seq<Batch>)
    requires Stable(g.voxelOf) && Increasing(log) && WellKeyed(g.voxelOf, seed.vox)
    ensures Strip(Resumed(g, k, seed, log)) == Strip(FoldAll(g, k, log).vox) <==> Matches(g, k, seed, log)
    decreases |log|
  {
    if |log| == 0 || log[|log| - 1].sequence <= seed.applied {
      ResumedPast(g, k, seed, log);
      HistoryIsFold(g, k, log, seed.applied);
    } else {
      var init, b := log[..|log| - 1], log[|log| - 1];
      ResumedIsFoldIffMatches(g, k, seed, init);
      var x, y := Resumed(g, k, seed, init), FoldAll(g, k, init);
      var o := Observe(g, k, y, b).opportunities;
      ResumedWellKeyed(g, k, seed, init);
      HistoryIsFold(g, k, init, Position(init, |init|));
      HistoryWellKeyed(g, k, init, Position(init, |init|));
      if Strip(x) == Strip(y.vox) {
        AddPointsStripped(g.voxelOf, x, y.vox, LandedIn(g, k, b), 0, o);
      }
      if Strip(AddPoints(g.voxelOf, x, LandedIn(g, k, b), 0))
          == Strip(AddPoints(g.voxelOf, y.vox, LandedIn(g, k, b), o)) {
        AddPointsCancel(g.voxelOf, x, y.vox, LandedIn(g, k, b), 0, o);
      }
    }
  }

  // ---------------------------------------------------------------- replaying over a leftover sidecar

  /** A chunk part way through a replay that began at `seed` with nothing else known. */
  ghost predicate Resuming(g: Setting, k: Key, c: Chunk, seed: Active) {
    var log := c.log.records;
    && Coherent(g, c) && Increasing(log) && c.tail.fused <= |log|
    && Strip(Resident(g, c).vox) == Strip(Resumed(g, k, seed, log[..c.tail.fused]))
    && seed.applied <= MemApplied(c)
    && (MemApplied(c) == seed.applied || MemApplied(c) <= Position(log, c.tail.fused))
  }

  lemma ResumedStep(g: Setting, k: Key, seed: Active, log: seq<Batch>, n: nat)
    requires n < |log|
    ensures Resumed(g, k, seed, log[..n + 1])
         == var before := Resumed(g, k, seed, log[..n]);
            if log[n].sequence <= seed.applied then before else AddPoints(g.voxelOf, before, LandedIn(g, k, log[n]), 0)
  {
    assert log[..n + 1][..n] == log[..n];
  }

  lemma FuseKeepsResuming(g: Setting, k: Key, c: Chunk, seed: Active)
    requires Stable(g.voxelOf) && Resuming(g, k, c, seed) && c.tail.fused < |c.log.records|
    ensures Resuming(g, k, FuseChunk(g, k, c, c.log.records[c.tail.fused]).(tail := c.tail.(fused := c.tail.fused + 1)),
                     seed)
  {
    hide Save, Load;
    var log, n := c.log.records, c.tail.fused;
    var b, a := log[n], Resident(g, c);
    assert a.applied == MemApplied(c) && WellKeyed(g.voxelOf, a.vox);
    ResumedStep(g, k, seed, log, n);
    hide Resumed, Strip;
    var c' := FuseChunk(g, k, c, b).(tail := c.tail.(fused := n + 1));
    assert Position(log, n) < b.sequence;
    assert a.applied < b.sequence <==> seed.applied < b.sequence;
    FuseKeepsCoherent(g, k, c, b);
    if a.applied < b.sequence {
      var o := ChunkLife.Counters(c').opportunities;
      AddPointsStripped(g.voxelOf, a.vox, Resumed(g, k, seed, log[..n]), LandedIn(g, k, b), o, 0);
    }
    hide Coherent;
  }

  lemma StepKeepsResuming(g: Setting, k: Key, c: Chunk, step: Step, seed: Active)
    requires Stable(g.voxelOf) && Resuming(g, k, c, seed) && LocalLegal(k, c, step) && !IsCrash(step)
    ensures Resuming(g, k, Local(g, k, c, step), seed)
  {
    if step.Fuse? {
      if step.session == k.session { FuseKeepsResuming(g, k, c, seed); }
    } else if step.Append? {
      if step.session == k.session {
        AppendKeepsIncreasing(c.log.records, step.batch);
        assert (c.log.records + [step.batch])[..c.tail.fused] == c.log.records[..c.tail.fused];
      }
    } else if Keeps(step) {
      WriteStepKeepsContent(g, k, c, step);
    }
  }

  lemma {:induction false} LeadsKeepsResuming(g: Setting, s: State, run: seq<Step>, t: State, k: Key, seed: Active)
    requires Stable(g.voxelOf) && Confined(s) && Leads(g, s, run, t) && Hosted(s, k)
             && Resuming(g, k, ChunkAt(s, k), seed)
    ensures Confined(t) && Hosted(t, k) && Resuming(g, k, ChunkAt(t, k), seed)
    decreases |run|
  {
    if |run| > 0 {
      var u, step := Exec(g, s, run[..|run| - 1]).value, run[|run| - 1];
      assert !IsCrash(run[|run| - 1]);
      LeadsKeepsResuming(g, s, run[..|run| - 1], u, k, seed);
      StepKeepsConfined(g, u, step);
      StepIsLocal(g, u, step, k);
      StepKeepsResuming(g, k, ChunkAt(u, k), step, seed);
    }
  }

  // ---------------------------------------------------------------- the whole session

  /** The store holds exactly what fusing the session's log once gives: voxels, baselines, counters, cells. */
  ghost predicate Exact(g: Setting, s: State, session: SessionId) {
    CaughtUp(s, session) && forall k: Key :: k.session == session ==>
      Hosted(s, k) && ExactChunk(FoldAll(g, k, s.disk.logs[session].records), g, ChunkAt(s, k))
  }

  ghost predicate ExactChunk(full: Content, g: Setting, c: Chunk) {
    && c.cell.Some? == full.known
    && (c.cell.Some? ==> c.cell.value.opportunities == full.opportunities)
    && Resident(g, c).vox == full.vox
  }

  function Elsewhere<V>(m: map<Key, V>, session: SessionId): map<Key, V> {
    map k | k in m && k.session != session :: m[k]
  }

  /** The chunks the session's rows name. */
  function Doomed(rows: map<Key, Row>, session: SessionId): set<Key> {
    set k | k in rows && k.session == session
  }

  /** The state with everything in memory and everything a row names gone, and the log rewound. */
  ghost function Rewound(s: State, session: SessionId): State
    requires session in s.disk.logs
  {
    var doomed := Doomed(s.disk.rows, session);
    State(Disk(s.disk.logs[session := s.disk.logs[session].(checkpoint := 0)],
               s.disk.acc - doomed, s.disk.bins - doomed, s.disk.rows - doomed),
          Mem(Elsewhere(s.mem.active, session), Elsewhere(s.mem.cells, session), s.mem.tails[session := Tail(0, None)]))
  }

  lemma RewoundIsConfined(s: State, session: SessionId)
    requires Confined(s) && session in s.disk.logs
    ensures Confined(Rewound(s, session))
    ensures s.mem.active.Keys <= s.mem.cells.Keys ==>
              Rewound(s, session).mem.active.Keys <= Rewound(s, session).mem.cells.Keys
  {
  }

  /** A chunk of the session starts over, but for a sidecar no row names. */
  lemma RewoundHere(s: State, session: SessionId, k: Key)
    requires Confined(s) && session in s.disk.logs && k.session == session
    ensures Hosted(s, k) && Hosted(Rewound(s, session), k)
    ensures var c := ChunkAt(s, k);
            ChunkAt(Rewound(s, session), k)
            == Chunk(c.log.(checkpoint := 0), Tail(0, None), if c.row.Some? then None else c.file, c.bin && c.row.None?,
                     None, None, None)
  {
  }

  lemma RewoundElsewhere(s: State, session: SessionId, k: Key)
    requires Confined(s) && session in s.disk.logs && k.session != session && Hosted(Rewound(s, session), k)
    ensures Hosted(s, k) && ChunkAt(Rewound(s, session), k) == ChunkAt(s, k)
  {
  }

  /** What replay starts from, chunk by chunk: in order unless a leftover sidecar disagrees with the correction. */
  lemma RewoundChunk(g: Setting, g': Setting, s: State, session: SessionId, k: Key)
    requires AllOrderly(g, s) && DiffersIn(g, g', session) && session in s.disk.logs && k.session == session
    ensures Hosted(Rewound(s, session), k)
    ensures var c := ChunkAt(Rewound(s, session), k);
            && Resuming(g', k, c, Leftover(g', s, k))
            && (Orphaned(s, session, k) && Matches(g', k, Leftover(g', s, k), c.log.records) ==> ChunkOk(g', k, c))
            && (!Orphaned(s, session, k) ==> ChunkOk(g', k, c) && CountersOk(g', k, c))
  {
    RewoundHere(s, session, k);
    hide Rewound;
    var before, log := ChunkAt(s, k), s.disk.logs[session].records;
    assert Orderly(g, before);
    assert log[..0] == [];
    HistoryAtZero(g', k, log);
  }

  /** Where the rebuild leaves each chunk: resumed from what the deletion missed, exact where it missed nothing. */
  ghost predicate RebuiltChunk(g: Setting, before: State, s: State, session: SessionId, k: Key)
    requires session in s.disk.logs && Hosted(s, k)
  {
    var log := s.disk.logs[session].records;
    && Strip(Resident(g, ChunkAt(s, k)).vox) == Strip(Resumed(g, k, Leftover(g, before, k), log))
    && (!Orphaned(before, session, k) ==> ExactChunk(FoldAll(g, k, log), g, ChunkAt(s, k)))
  }

  lemma ReplayedChunk(g: Setting, g': Setting, before: State, run: seq<Step>, s: State, session: SessionId, k: Key)
    requires AllOrderly(g, before) && DiffersIn(g, g', session) && Stable(g'.voxelOf) && k.session == session
    requires session in before.disk.logs && Leads(g', Rewound(before, session), run, s) && CaughtUp(s, session)
    ensures Hosted(s, k) && RebuiltChunk(g', before, s, session, k)
  {
    hide Rewound, Leads, ChunkOk, CountersOk, Resuming, AllOrderly;
    assert Confined(before) by { OrderlyIsConfined(g, before); }
    var log := s.disk.logs[session].records;
    RewoundIsConfined(before, session);
    RewoundChunk(g, g', before, session, k);
    LeadsKeepsResuming(g', Rewound(before, session), run, s, k, Leftover(g', before, k));
    ResumedToTheEnd(g', k, ChunkAt(s, k), Leftover(g', before, k));
    if !Orphaned(before, session, k) {
      LeadsKeepsCounters(g', Rewound(before, session), run, s, k);
      CaughtUpCounters(g', k, ChunkAt(s, k));
    }
  }

  lemma OrderlyIsConfined(g: Setting, s: State)
    requires AllOrderly(g, s)
    ensures Confined(s)
  {
  }

  lemma ResumedToTheEnd(g: Setting, k: Key, c: Chunk, seed: Active)
    requires Resuming(g, k, c, seed) && c.tail.fused == |c.log.records|
    ensures Strip(Resident(g, c).vox) == Strip(Resumed(g, k, seed, c.log.records))
  {
    assert c.log.records[..|c.log.records|] == c.log.records;
  }

  /**
   * What a rebuild comes to. The deletion misses exactly the sidecars without a row, and replay skips
   * the records they already hold; so the session ends up holding the corrected log once if and only
   * if every such sidecar already held what the corrected log says.
   */
  lemma RebuildRestoresIffLeftoversMatch(g: Setting, g': Setting, before: State, run: seq<Step>, s: State,
                                         session: SessionId)
    requires AllOrderly(g, before) && DiffersIn(g, g', session) && Stable(g'.voxelOf)
    requires session in before.disk.logs && Leads(g', Rewound(before, session), run, s) && CaughtUp(s, session)
    requires s.disk.logs[session].records == before.disk.logs[session].records
    ensures forall k: Key :: k.session == session ==> Hosted(s, k) && RebuiltChunk(g', before, s, session, k)
    ensures Restored(g', s, session, before.disk.logs[session].records) <==> LeftoversMatch(g', before, session)
    ensures AllOrderly(g', s)
    ensures OkElsewhere(g, before, session) ==> (Inv(g', s) <==> LeftoversMatch(g', before, session))
    ensures NoOrphans(before, session) ==> Exact(g', s, session)
    ensures NoOrphans(before, session) && CountersInv(g, before) ==> CountersInv(g', s)
  {
    hide Rewound, Leads, ChunkOk, RebuiltChunk, AllOrderly;
    assert Confined(before) by { OrderlyIsConfined(g, before); }
    RewoundIsOrderly(g, g', before, session);
    LeadsKeepsOrderly(g', Rewound(before, session), run, s);
    var log := before.disk.logs[session].records;
    forall k: Key | k.session == session
      ensures Hosted(s, k) && RebuiltChunk(g', before, s, session, k)
      ensures Strip(Resident(g', ChunkAt(s, k)).vox) == Strip(FoldAll(g', k, log).vox)
              <==> (Orphaned(before, session, k) ==> Matches(g', k, Leftover(g', before, k), log))
    {
      ReplayedChunk(g, g', before, run, s, session, k);
      RebuiltChunkIsRight(g, g', before, s, session, k);
    }
    if LeftoversMatch(g', before, session) && OkElsewhere(g, before, session) {
      RewoundIsOk(g, g', before, session);
      LeadsKeepsInv(g', Rewound(before, session), run, s);
    }
    if Inv(g', s) {
      forall k: Key | k.session == session
        ensures Strip(Resident(g', ChunkAt(s, k)).vox) == Strip(FoldAll(g', k, log).vox)
      {
        CaughtUpChunk(g', k, ChunkAt(s, k));
      }
    }
    if NoOrphans(before, session) {
      RebuiltIsExact(g', before, s, session);
      if CountersInv(g, before) { RebuiltIsCounted(g, g', before, run, s, session); }
    }
  }

  /** The other sessions' chunks satisfy the store's invariant. */
  ghost predicate OkElsewhere(g: Setting, s: State, session: SessionId) {
    forall k: Key :: Hosted(s, k) && k.session != session ==> ChunkOk(g, k, ChunkAt(s, k))
  }

  lemma InvIsOkElsewhere(g: Setting, s: State, session: SessionId)
    requires Inv(g, s)
    ensures AllOrderly(g, s) && OkElsewhere(g, s, session)
  {
    InvIsOrderly(g, s);
  }

  lemma LeadsKeepsOrderly(g: Setting, s: State, run: seq<Step>, t: State)
    requires Stable(g.voxelOf) && AllOrderly(g, s) && Leads(g, s, run, t)
    ensures AllOrderly(g, t)
  {
    RunKeepsOrderly(g, s, run);
  }

  lemma RewoundIsOrderly(g: Setting, g': Setting, s: State, session: SessionId)
    requires AllOrderly(g, s) && DiffersIn(g, g', session) && session in s.disk.logs
    ensures AllOrderly(g', Rewound(s, session))
  {
    hide Rewound;
    RewoundIsConfined(s, session);
    forall k: Key | Hosted(Rewound(s, session), k) ensures Orderly(g', ChunkAt(Rewound(s, session), k)) {
      if k.session == session { RewoundHere(s, session, k); } else { RewoundElsewhere(s, session, k); }
      assert Orderly(g, ChunkAt(s, k));
    }
  }

  /** Without a leftover sidecar a rebuild keeps every counter right, so what follows it is exact again. */
  lemma RebuiltIsCounted(g: Setting, g': Setting, before: State, run: seq<Step>, s: State, session: SessionId)
    requires AllOrderly(g, before) && DiffersIn(g, g', session) && Stable(g'.voxelOf)
    requires session in before.disk.logs && Leads(g', Rewound(before, session), run, s)
    requires NoOrphans(before, session) && CountersInv(g, before)
    ensures CountersInv(g', s)
  {
    RewoundIsCounted(g, g', before, session);
    hide CountersInv, Rewound;
    NoPersistCrashIsBenign(g', Rewound(before, session), run);
    RunKeepsCounters(g', Rewound(before, session), run);
  }

  lemma RewoundIsCounted(g: Setting, g': Setting, s: State, session: SessionId)
    requires AllOrderly(g, s) && DiffersIn(g, g', session) && session in s.disk.logs
    requires NoOrphans(s, session) && CountersInv(g, s)
    ensures CountersInv(g', Rewound(s, session))
  {
    hide Rewound, ChunkOk, CountersOk;
    RewoundIsConfined(s, session);
    forall k: Key | Hosted(Rewound(s, session), k)
      ensures ChunkOk(g', k, ChunkAt(Rewound(s, session), k)) && CountersOk(g', k, ChunkAt(Rewound(s, session), k))
    {
      if k.session == session {
        RewoundChunk(g, g', s, session, k);
      } else {
        RewoundElsewhere(s, session, k);
        CountersOkElsewhere(g, g', session, k, ChunkAt(s, k));
      }
    }
  }

  lemma RebuiltIsExact(g: Setting, before: State, s: State, session: SessionId)
    requires CaughtUp(s, session) && NoOrphans(before, session)
    requires forall k: Key :: k.session == session ==> Hosted(s, k) && RebuiltChunk(g, before, s, session, k)
    ensures Exact(g, s, session)
  {
    hide ExactChunk, Strip, Resumed, Leftover;
  }

  lemma LeadsKeepsInv(g: Setting, s: State, run: seq<Step>, t: State)
    requires Stable(g.voxelOf) && Inv(g, s) && Leads(g, s, run, t)
    ensures Inv(g, t)
  {
    RunKeepsInv(g, s, run);
  }

  lemma RebuiltChunkIsRight(g: Setting, g': Setting, before: State, s: State, session: SessionId, k: Key)
    requires AllOrderly(g, before) && DiffersIn(g, g', session) && Stable(g'.voxelOf) && k.session == session
    requires session in before.disk.logs && session in s.disk.logs && Hosted(s, k)
             && RebuiltChunk(g', before, s, session, k)
    requires s.disk.logs[session].records == before.disk.logs[session].records
    ensures var log := before.disk.logs[session].records;
            Strip(Resident(g', ChunkAt(s, k)).vox) == Strip(FoldAll(g', k, log).vox)
            <==> (Orphaned(before, session, k) ==> Matches(g', k, Leftover(g', before, k), log))
  {
    var log, seed := before.disk.logs[session].records, Leftover(g', before, k);
    RewoundHere(before, session, k);
    assert Orderly(g, ChunkAt(before, k));
    assert WellKeyed(g'.voxelOf, seed.vox);
    if Orphaned(before, session, k) {
      ResumedIsFoldIffMatches(g', k, seed, log);
    }
  }

  lemma RewoundIsOk(g: Setting, g': Setting, s: State, session: SessionId)
    requires AllOrderly(g, s) && OkElsewhere(g, s, session) && DiffersIn(g, g', session)
    requires session in s.disk.logs && LeftoversMatch(g', s, session)
    ensures Inv(g', Rewound(s, session))
  {
    hide Rewound, ChunkOk;
    RewoundIsConfined(s, session);
    forall k: Key | Hosted(Rewound(s, session), k)
      ensures ChunkOk(g', k, ChunkAt(Rewound(s, session), k))
    {
      if k.session == session {
        RewoundHere(s, session, k);
        RewoundChunk(g, g', s, session, k);
      } else {
        RewoundElsewhere(s, session, k);
        ChunkOkElsewhere(g, g', session, k, ChunkAt(s, k));
      }
    }
  }

  /**
   * Throw away a session's fused chunks, resident and on disk, and re-fuse every logged batch under
   * the corrected poses.
   */
  method RebuildSession(store: ChunkStore, session: SessionId, corrected: Setting)
    requires store.Valid() && Stable(corrected.voxelOf) && AllOrderly(store.setting, store.Current())
    requires session in store.disk.logs && session in store.index
    requires DiffersIn(store.setting, corrected, session)
    modifies store
    ensures store.Valid() && store.setting == corrected && CaughtUp(store.Current(), session)
    ensures session in old(store.disk).logs
    ensures store.disk.logs[session]
            == Log(old(store.disk).logs[session].records, false, |old(store.disk).logs[session].records|)
    ensures forall k: Key :: k.session == session ==>
              Hosted(store.Current(), k) && RebuiltChunk(corrected, old(store.Current()), store.Current(), session, k)
    ensures Restored(corrected, store.Current(), session, store.disk.logs[session].records)
            <==> LeftoversMatch(corrected, old(store.Current()), session)
    ensures AllOrderly(corrected, store.Current())
    ensures old(OkElsewhere(store.setting, store.Current(), session)) ==>
              (Inv(corrected, store.Current()) <==> LeftoversMatch(corrected, old(store.Current()), session))
    ensures NoOrphans(old(store.Current()), session) ==> Exact(corrected, store.Current(), session)
    ensures NoOrphans(old(store.Current()), session) && old(CountersInv(store.setting, store.Current())) ==>
              CountersInv(corrected, store.Current())
    ensures store.Indexed(session, |store.disk.logs[session].records|)
    ensures |store.index[session]| == |store.disk.logs[session].records|
  {
    hide Rewound, Inv, Leads, LeftoversMatch, NoOrphans, Exact, RebuiltChunk, AllOrderly, OkElsewhere, CountersInv;
    ghost var before, was := store.Current(), store.setting;
    DropSession(store, session);
    store.setting := corrected;
    ghost var emptied := store.Current();
    assert emptied.mem.tails[session] == Tail(0, None)
        && emptied.disk.logs[session].records == before.disk.logs[session].records
      by { RewoundTail(before, session); }
    ghost var replay := store.ReplayLog(session);
    ghost var replayed := store.Current();
    var done;
    ghost var sweep;
    done, sweep := store.CheckpointSession(session, None);
    LeadsOn(corrected, emptied, replay, replayed, sweep, store.Current());
    RebuildRestoresIffLeftoversMatch(was, corrected, before, replay + sweep, store.Current(), session);
  }

  lemma RewoundTail(s: State, session: SessionId)
    requires session in s.disk.logs
    ensures var r := Rewound(s, session);
            && session in r.disk.logs && session in r.mem.tails && r.mem.tails[session] == Tail(0, None)
            && r.disk.logs[session].records == s.disk.logs[session].records
  {
  }

  /** Forget everything fused for a session: residents, files with a row, rows, cells, index; rewind its log. */
  method DropSession(store: ChunkStore, session: SessionId)
    requires store.Valid() && session in store.disk.logs && session in store.index
    modifies store`disk, store`active, store`order, store`cells, store`tails, store`index
    ensures store.Valid() && store.Current() == Rewound(old(store.Current()), session)
    ensures store.index == old(store.index)[session := []]
  {
    hide Confined, Outside, Lists, Elsewhere;
    ghost var before := store.Current();
    RewoundIsConfined(before, session);
    var dropped := set k | k in store.active && k.session == session;
    DroppedAreAll(store.active, session, dropped);
    OutsideLists(store.order, store.active, dropped);
    store.active := store.active - dropped;
    store.order := Outside(store.order, dropped);
    var disk := store.disk;
    var doomed := Doomed(disk.rows, session);
    store.disk := Disk(disk.logs[session := disk.logs[session].(checkpoint := 0)],
                       disk.acc - doomed, disk.bins - doomed, disk.rows - doomed);
    store.index := store.index[session := []];
    store.cells := Elsewhere(store.cells, session);
    store.tails := store.tails[session := Tail(0, None)];
    assert store.Current() == Rewound(before, session);
  }

  lemma DroppedAreAll(active: map<Key, Active>, session: SessionId, dropped: set<Key>)
    requires dropped == (set k | k in active && k.session == session)
    ensures active - dropped == Elsewhere(active, session)
  {
  }
}
