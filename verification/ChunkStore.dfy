/**
 * The resident chunk cache over the log: the store's own methods. Each method's effect is a run of
 * the state machine, so every result about runs and crashes applies to it.
 */
module ChunkStores {
  import opened Voxels
  import opened Poses
  import opened LogHistory
  import opened StoreMachine
  import opened ChunkLife
  import opened StoreSafety
  import opened Recovery
  import opened Residency
  import opened WriteBack
  import opened Sums
  import opened Fusings

  /** A row of the batch index: where a batch is logged, how it was fused, and the chunks it spans. */
  datatype IndexRow = IndexRow(sequence: nat, poseSequence: nat, logOffset: nat, loggedPose: Pose, fusedPose: Pose,
                               chunks: set<Cell>)

  function RowFor(g: Setting, session: SessionId, b: Batch, at: nat): IndexRow {
    var pose := PoseOf(g, session, b);
    IndexRow(b.sequence, b.poseSequence, at, b.pose, pose, Spanned(g, pose, b.points))
  }

  datatype Outcome = Rejected | Fused(touched: seq<Key>, pose: Pose)

  class ChunkStore {
    var setting: Setting  // replaced when pose corrections change
    const flushPointThreshold: nat
    const maxDirtyChunks: nat
    const maxChunksPerBatch: nat

    var disk: Disk
    var active: map<Key, Active>
    var order: seq<Key>          // resident keys, least recently used first
    var cells: map<Key, Stats>
    var tails: map<SessionId, Tail>
    var index: map<SessionId, seq<IndexRow>>  // the batch index rows, in sequence order

    function Memory(): Mem reads this {
      Mem(active, cells, tails)
    }

    function Current(): State reads this {
      State(disk, Memory())
    }

    ghost predicate Cached() reads this {
      Lists(order, active) && active.Keys <= cells.Keys
    }

    ghost predicate Valid() reads this {
      Cached() && Confined(Current())
    }

    // -------------------------------------------------------------- startup

    /** What a process that died leaves behind: a disk replay can start from, indexed up to each checkpoint. */
    static ghost predicate Recoverable(setting: Setting, disk: Disk, index: map<SessionId, seq<IndexRow>>) {
      && Inv(setting, State(disk, Restart(disk)))
      && forall s :: s in disk.logs ==>
           && s in index && disk.logs[s].checkpoint <= |index[s]| && disk.logs[s].checkpoint <= |disk.logs[s].records|
           && forall i :: 0 <= i < disk.logs[s].checkpoint ==>
                 index[s][i] == RowFor(setting, s, disk.logs[s].records[i], i)
    }

    /**
     * Open the store on what is on disk: replay each session's log from its checkpoint, drop torn
     * tails, and checkpoint. Afterwards every chunk holds every logged batch exactly once and the
     * next start has nothing to replay.
     */
    constructor (setting: Setting, disk: Disk, index: map<SessionId, seq<IndexRow>>,
                 flushPointThreshold: nat, maxDirtyChunks: nat, maxChunksPerBatch: nat)
      requires Stable(setting.voxelOf) && Recoverable(setting, disk, index)
      ensures Valid() && Inv(setting, Current()) && this.setting == setting
      ensures this.maxDirtyChunks == maxDirtyChunks && this.maxChunksPerBatch == maxChunksPerBatch
      ensures exists run :: Leads(setting, State(disk, Restart(disk)), run, Current())
      ensures this.disk.logs.Keys == disk.logs.Keys
      ensures forall s :: s in disk.logs ==>
                && this.disk.logs[s] == Log(disk.logs[s].records, false, |disk.logs[s].records|)
                && CaughtUp(Current(), s) && Indexed(s, |disk.logs[s].records|)
      ensures forall k: Key :: k.session in disk.logs ==>
                && Hosted(Current(), k)
                && Strip(Resident(setting, ChunkAt(Current(), k)).vox)
                    == Strip(FoldAll(setting, k, disk.logs[k.session].records).vox)
    {
      this.setting := setting;
      this.flushPointThreshold, this.maxDirtyChunks, this.maxChunksPerBatch := flushPointThreshold, maxDirtyChunks,
          maxChunksPerBatch;
      this.disk, this.index := disk, index;
      active, order := map[], [];
      cells := map k | k in disk.rows :: Stats(disk.rows[k].opportunities, disk.rows[k].fov, false);
      tails := map s | s in disk.logs :: Tail(disk.logs[s].checkpoint, None);
      new;
      ghost var run := RecoverLogs(disk.logs);
      ghost var start := State(disk, Restart(disk));
      RunKeepsInv(setting, start, run);
      forall k: Key | k.session in disk.logs
        ensures Hosted(Current(), k)
        ensures Strip(Resident(setting, ChunkAt(Current(), k)).vox)
                == Strip(FoldAll(setting, k, disk.logs[k.session].records).vox)
      {
        CaughtUpChunk(setting, k, ChunkAt(Current(), k));
      }
    }

    /** A store that dies leaves a disk it can be opened on again. */
    lemma DyingIsRecoverable()
      requires Inv(setting, Current()) && Stable(setting.voxelOf)
      requires forall s :: s in disk.logs ==> s in tails && Indexed(s, tails[s].fused)
      ensures Recoverable(setting, disk, index)
    {
      StepKeepsInv(setting, Current(), Crash);
      forall s | s in disk.logs
        ensures disk.logs[s].checkpoint <= tails[s].fused
      {
        assert Hosted(Current(), Key(s, Cell(0, 0, 0)))
            && ChunkOk(setting, Key(s, Cell(0, 0, 0)), ChunkAt(Current(), Key(s, Cell(0, 0, 0))));
      }
    }

    method RecoverLogs(ghost logs: map<SessionId, Log>) returns (ghost run: seq<Step>)
      requires Valid() && disk.logs == logs
      requires forall s :: s in logs ==> Awaiting(s, logs[s])
      modifies this`disk, this`active, this`order, this`cells, this`tails, this`index
      ensures Valid() && Leads(setting, old(Current()), run, Current())
      ensures disk.logs.Keys == logs.Keys
      ensures forall s :: s in logs ==> Recovered(s, logs[s].records)
    {
      hide Leads, Awaiting, Recovered, Confined;
      ghost var s := Current();
      LeadsNowhere(setting, s);
      run := [];
      var todo := disk.logs.Keys;
      while todo != {}
        invariant Valid() && Leads(setting, s, run, Current())
        invariant todo <= logs.Keys && disk.logs.Keys == logs.Keys
        invariant forall s :: s in todo ==> Awaiting(s, logs[s])
        invariant forall s :: s in logs && s !in todo ==> Recovered(s, logs[s].records)
        decreases todo
      {
        var session :| session in todo;
        todo := todo - {session};
        ghost var t := Current();
        ghost var step := RecoverSession(session, logs[session]);
        LeadsOn(setting, s, run, t, step, Current());
        run := run + step;
      }
    }

    /** The session is as it was found: to be replayed from its checkpoint. */
    ghost predicate Awaiting(session: SessionId, log: Log) reads this {
      && session in disk.logs && session in tails
      && disk.logs[session] == log && tails[session] == Tail(log.checkpoint, None)
      && Indexed(session, log.checkpoint)
    }

    /** The session is replayed to the end, truncated, checkpointed and indexed. */
    ghost predicate Recovered(session: SessionId, records: seq<Batch>) reads this {
      && session in disk.logs && session in tails
      && disk.logs[session] == Log(records, false, |records|)
      && CaughtUp(Current(), session) && Indexed(session, |records|)
    }

    method RecoverSession(session: SessionId, ghost log: Log) returns (ghost run: seq<Step>)
      requires Valid() && Awaiting(session, log)
      modifies this`disk, this`active, this`order, this`cells, this`tails, this`index
      ensures Valid() && Leads(setting, old(Current()), run, Current())
      ensures Recovered(session, log.records)
      ensures disk.logs.Keys == old(disk).logs.Keys
      ensures forall s, l :: s != session && old(Awaiting(s, l)) ==> Awaiting(s, l)
      ensures forall s, r :: s != session && old(Recovered(s, r)) ==> Recovered(s, r)
    {
      hide Leads;
      ghost var s := Current();
      run := ReplayLog(session);
      ghost var t := Current();
      var done;
      ghost var sweep;
      done, sweep := CheckpointSession(session, None);
      LeadsOn(setting, s, run, t, sweep, Current());
      run := run + sweep;
    }

    // -------------------------------------------------------------- writing chunks back

    method PersistChunk(key: Key) returns (ghost run: seq<Step>)
      requires Valid() && key in active
      modifies this`disk, this`active, this`cells
      ensures Valid() && run == [Persist(key)] && Leads(setting, old(Current()), run, Current())
      ensures Legal(setting, old(Current()), Persist(key)) && Current() == Apply(setting, old(Current()), Persist(key))
      ensures active == old(active)[key := old(active)[key].(pending := 0)] && cells.Keys == old(cells).Keys
      ensures disk.logs == old(disk).logs && (|active[key].vox.keys| > 0 ==> key in disk.bins)
    {
      ghost var s := Current();
      run := [Persist(key)];
      ExecOne(setting, s, Persist(key));
      hide Leads;
      var a := active[key];
      active := active[key := a.(pending := 0)];
      if |a.vox.keys| == 0 {
        return;
      }
      var st := cells[key];
      cells := cells[key := st.(dirty := false)];
      disk := disk.(acc := disk.acc[key := AccFile(Save(a.vox), a.applied)]);
      disk := disk.(bins := disk.bins + {key});
      disk := disk.(rows := disk.rows[key := Row(st.opportunities, st.fov)]);
      assert Current() == Apply(setting, s, Persist(key));
    }

    method ReleaseChunk(key: Key) returns (ghost run: seq<Step>)
      requires Valid() && key in active && active[key].pending == 0
      requires key in disk.bins || |active[key].vox.keys| == 0
      modifies this`active, this`order
      ensures Valid() && run == [Release(key)] && Leads(setting, old(Current()), run, Current())
      ensures order == Without(old(order), key) && |order| == |old(order)| - 1
      ensures active == old(active) - {key}
    {
      hide Leads, Legal, Apply, Exec, Without, Lists;
      run := [Release(key)];
      ReleaseLeads(setting, Current(), key);
      assert Lists(order, active);
      WithoutLists(order, active, key);
      active := active - {key};
      order := Without(order, key);
    }

    /** Release a resident chunk, writing it first when it has unsaved points or no file yet. */
    method EvictChunk(key: Key) returns (ghost run: seq<Step>)
      requires Valid() && key in active
      modifies this`disk, this`active, this`order, this`cells
      ensures Valid() && WritesBack(run)
      ensures Leads(setting, old(Current()), run, Current())
      ensures order == Without(old(order), key) && |order| == |old(order)| - 1
      ensures active.Keys == old(active).Keys - {key}
      ensures run == if old(active)[key].pending > 0 || key !in old(disk).bins then [Persist(key), Release(key)]
              else [Release(key)]
      ensures forall k :: k in active ==> k in old(active) && active[k] == old(active)[k]
    {
      hide Leads, Apply, Legal, Without;
      run := [];
      ghost var s := Current();
      LeadsNowhere(setting, s);
      if active[key].pending > 0 || key !in disk.bins {
        run := PersistChunk(key);
      }
      ghost var t := Current();
      ghost var release := ReleaseChunk(key);
      LeadsOn(setting, s, run, t, release, Current());
      run := run + release;
    }

    /** Evict the oldest chunks until the resident budget holds. */
    method EnforceActiveLimit() returns (ghost run: seq<Step>)
      requires Valid()
      modifies this`disk, this`active, this`order, this`cells
      ensures Valid() && WritesBack(run)
      ensures Leads(setting, old(Current()), run, Current())
      ensures order == Newest(old(order), maxDirtyChunks)
      ensures forall k :: k in active ==> k in old(active) && active[k] == old(active)[k]
    {
      hide Leads, Without;
      run := [];
      ghost var s := Current();
      LeadsNowhere(setting, s);
      ghost var n := 0;
      while |order| > maxDirtyChunks
        invariant Valid() && WritesBack(run) && Leads(setting, s, run, Current())
        invariant n <= |old(order)| && order == old(order)[n..]
        invariant n > 0 ==> |order| >= maxDirtyChunks
        invariant forall k :: k in active ==> k in old(active) && active[k] == old(active)[k]
        decreases |order|
      {
        ghost var t := Current();
        DropOldest(order);
        assert order[0] in order;
        ghost var step := EvictChunk(order[0]);
        LeadsOn(setting, s, run, t, step, Current());
        run := run + step;
        n := n + 1;
      }
    }

    /**
     * Make room for a batch's chunks before fusing it. The search for a victim never comes up empty
     * when the batch itself fits the budget, and never picks one of the batch's own chunks.
     */
    method PrepareActiveCapacity(batchKeys: set<Key>) returns (ghost run: seq<Step>)
      requires Valid() && |batchKeys| <= maxDirtyChunks
      modifies this`disk, this`active, this`order, this`cells
      ensures Valid() && WritesBack(run)
      ensures Leads(setting, old(Current()), run, Current())
      ensures |order| + |batchKeys - active.Keys| <= maxDirtyChunks
      ensures active.Keys <= old(active).Keys && old(active).Keys * batchKeys <= active.Keys
      ensures |old(order)| + |batchKeys - old(active).Keys| <= maxDirtyChunks ==> run == [] && order == old(order)
      ensures |old(order)| + |batchKeys - old(active).Keys| > maxDirtyChunks ==>
                |order| + |batchKeys - active.Keys| == maxDirtyChunks
    {
      hide Leads, Without;
      run := [];
      ghost var s := Current();
      LeadsNowhere(setting, s);
      var newChunks := |batchKeys - active.Keys|;
      while |order| + newChunks > maxDirtyChunks
        invariant Valid() && WritesBack(run) && Leads(setting, s, run, Current())
        invariant active.Keys <= old(active).Keys && old(active).Keys * batchKeys <= active.Keys
        invariant batchKeys - active.Keys == batchKeys - old(active).Keys
        invariant |order| + newChunks >= maxDirtyChunks || (run == [] && order == old(order))
        invariant |old(order)| + newChunks <= maxDirtyChunks ==> run == [] && order == old(order)
        decreases |order|
      {
        ghost var t := Current();
        ghost var step := EvictVictim(batchKeys);
        LeadsOn(setting, s, run, t, step, Current());
        run := run + step;
      }
    }

    method EvictVictim(batchKeys: set<Key>) returns (ghost run: seq<Step>)
      requires Valid() && |batchKeys| <= maxDirtyChunks
      requires |order| + |batchKeys - active.Keys| > maxDirtyChunks
      modifies this`disk, this`active, this`order, this`cells
      ensures Valid() && WritesBack(run)
      ensures Leads(setting, old(Current()), run, Current())
      ensures |order| == |old(order)| - 1 && active.Keys <= old(active).Keys
      ensures old(active).Keys * batchKeys <= active.Keys
      ensures batchKeys - active.Keys == batchKeys - old(active).Keys
    {
      hide Leads, Without;
      var victim := FindVictim(batchKeys);
      run := EvictChunk(victim);
    }

    /** The oldest resident chunk that is not part of the batch. */
    method FindVictim(batchKeys: set<Key>) returns (victim: Key)
      requires Valid() && |batchKeys| <= maxDirtyChunks
      requires |order| + |batchKeys - active.Keys| > maxDirtyChunks
      ensures victim in active && victim !in batchKeys
      ensures exists i :: 0 <= i < |order| && order[i] == victim && forall j :: 0 <= j < i ==> order[j] in batchKeys
    {
      var i := 0;
      while i < |order| && order[i] in batchKeys
        invariant i <= |order| && forall j :: 0 <= j < i ==> order[j] in batchKeys
      {
        i := i + 1;
      }
      if i == |order| {
        BatchFits(batchKeys); // so "Unable to free enough resident chunk capacity" is never reported
        assert false;
      }
      assert order[i] in order;
      victim := order[i];
    }

    lemma BatchFits(batchKeys: set<Key>)
      requires Valid() && |batchKeys| <= maxDirtyChunks
      requires forall j :: 0 <= j < |order| ==> order[j] in batchKeys
      ensures |order| + |batchKeys - active.Keys| <= maxDirtyChunks
    {
      DistinctSize(order);
      assert Keys(order) == active.Keys;
      assert batchKeys == active.Keys + (batchKeys - active.Keys);
    }

    // -------------------------------------------------------------- checkpoints

    /** Save the counters of cells whose on-disk voxels are current. */
    method FlushCellStats(session: SessionId) returns (ghost run: seq<Step>)
      requires Valid()
      modifies this`disk, this`cells
      ensures Valid() && StatsFlushed(Current(), session)
      ensures AllKeep(run) && Writes(run) == 0
      ensures Leads(setting, old(Current()), run, Current())
      ensures disk.logs == old(disk).logs && cells.Keys == old(cells).Keys
    {
      hide Leads;
      run := [];
      ghost var s := Current();
      LeadsNowhere(setting, s);
      var todo := set k | k in cells && k.session == session;
      while todo != {}
        invariant Valid() && AllKeep(run) && Writes(run) == 0 && Leads(setting, s, run, Current())
        invariant disk.logs == old(disk).logs && cells.Keys == old(cells).Keys && todo <= cells.Keys
        invariant forall k :: k in cells && k.session == session && k !in todo && cells[k].dirty ==>
                    DirtyResident(Memory(), k) || k !in disk.rows
        decreases todo
      {
        var key :| key in todo;
        ghost var t := Current();
        ghost var step := FlushCellStat(key);
        LeadsOn(setting, s, run, t, step, Current());
        KeepOn(run, step);
        run := run + step;
        todo := todo - {key};
      }
    }

    method FlushCellStat(key: Key) returns (ghost run: seq<Step>)
      requires Valid() && key in cells
      modifies this`disk, this`cells
      ensures Valid() && Leads(setting, old(Current()), run, Current())
      ensures AllKeep(run) && Writes(run) == 0
      ensures disk.logs == old(disk).logs && disk.rows.Keys == old(disk).rows.Keys
      ensures cells.Keys == old(cells).Keys && forall k :: k in cells && k != key ==> cells[k] == old(cells)[k]
      ensures cells[key].dirty ==> DirtyResident(Memory(), key) || key !in disk.rows
    {
      run := [];
      if !cells[key].dirty || DirtyResident(Memory(), key) {
        return;
      }
      if key in disk.rows {
        ghost var s := Current();
        var st := cells[key];
        disk := disk.(rows := disk.rows[key := Row(st.opportunities, st.fov)]);
        cells := cells[key := st.(dirty := false)];
        ExecOne(setting, s, FlushCell(key));
        run := [FlushCell(key)];
        assert run[..0] == [];
      }
    }

    /**
     * Advance a session's replay start: snapshot the log end and the dirty chunks, write at most
     * `maxChunks` of them per call (all of them when there is no bound), and move the checkpoint to
     * the snapshot once none is left. Reports whether the checkpoint reached the end of the log.
     */
    method CheckpointSession(session: SessionId, maxChunks: Option<nat>) returns (upToDate: bool, ghost run: seq<Step>)
      requires Valid() && CaughtUp(Current(), session)
      modifies this`disk, this`active, this`cells, this`tails
      ensures Valid() && CaughtUp(Current(), session)
      ensures AllKeep(run)
      ensures Leads(setting, old(Current()), run, Current())
      ensures upToDate <==> tails[session].sweep.None? && disk.logs[session].checkpoint == |disk.logs[session].records|
      ensures maxChunks.None? ==> tails[session].sweep.None?
      ensures maxChunks.Some? ==> Writes(run) <= maxChunks.value
      ensures tails[session].sweep.None? || (maxChunks.Some? && Writes(run) == maxChunks.value)
      ensures maxChunks.None? && old(tails)[session].sweep.None? ==> upToDate
      ensures active.Keys == old(active).Keys
      ensures OnlyCheckpointMoves(old(disk).logs, disk.logs, session)
      ensures forall s :: s in old(tails) && s != session ==> s in tails && tails[s] == old(tails)[s]
    {
      hide Leads, AllKeep, StatsFlushed, Confined, Writes;
      ghost var s := Current();
      run := FlushCellStats(session);
      ghost var t := Current();
      if tails[session].sweep.None? {
        var dirty := DirtyKeys(order, active, session);
        if |disk.logs[session].records| == disk.logs[session].checkpoint && dirty == [] {
          return true, run;
        }
        ghost var begin := StartSweep(session, dirty);
        LeadsOn(setting, s, run, t, begin, Current());
        KeepOn(run, begin);
        run := run + begin;
      }
      ghost var u := Current();
      ghost var sweep := SweepPending(session, maxChunks);
      LeadsOn(setting, s, run, u, sweep, Current());
      KeepOn(run, sweep);
      run := run + sweep;
      if |tails[session].sweep.value.pending| > 0 {
        return false, run;
      }
      ghost var v := Current();
      ghost var end := FinishSweep(session);
      LeadsOn(setting, s, run, v, end, Current());
      KeepOn(run, end);
      run := run + end;
      upToDate := |disk.logs[session].records| == disk.logs[session].checkpoint;
    }

    /** Snapshot the log end and the dirty chunks. */
    method StartSweep(session: SessionId, dirty: seq<Key>) returns (ghost run: seq<Step>)
      requires Valid() && CaughtUp(Current(), session) && tails[session].sweep.None? && StatsFlushed(Current(), session)
      requires dirty == DirtyKeys(order, active, session)
      modifies this`tails
      ensures Valid() && Leads(setting, old(Current()), run, Current())
      ensures AllKeep(run) && Writes(run) == 0
      ensures tails
              == old(tails)[session := old(tails)[session].(sweep := Some(Sweep(|disk.logs[session].records|, dirty)))]
    {
      DirtyKeysAre(order, active, session);
      run := [BeginSweep(session, dirty)];
      assert run[..0] == [];
      ExecOne(setting, Current(), BeginSweep(session, dirty));
      tails := tails[session := tails[session].(sweep := Some(Sweep(|disk.logs[session].records|, dirty)))];
    }

    /** Everything of the snapshot is on disk: move the checkpoint to it. */
    method FinishSweep(session: SessionId) returns (ghost run: seq<Step>)
      requires Valid() && session in tails && tails[session].sweep.Some? && tails[session].sweep.value.pending == []
      modifies this`disk, this`tails
      ensures Valid() && Leads(setting, old(Current()), run, Current())
      ensures AllKeep(run) && Writes(run) == 0
      ensures tails == old(tails)[session := old(tails)[session].(sweep := None)]
      ensures disk.logs == old(disk).logs[session :=
                old(disk).logs[session].(checkpoint := old(tails)[session].sweep.value.offset)]
    {
      run := [EndSweep(session)];
      assert run[..0] == [];
      ExecOne(setting, Current(), EndSweep(session));
      var offset := tails[session].sweep.value.offset;
      tails := tails[session := tails[session].(sweep := None)];
      disk := disk.(logs := disk.logs[session := disk.logs[session].(checkpoint := offset)]);
    }

    /** Write the swept chunks that are still dirty, last first, until done or out of budget. */
    method SweepPending(session: SessionId, maxChunks: Option<nat>) returns (ghost run: seq<Step>)
      requires Valid() && session in tails && tails[session].sweep.Some?
      modifies this`disk, this`active, this`cells, this`tails
      ensures Valid() && Leads(setting, old(Current()), run, Current())
      ensures AllKeep(run)
      ensures SweepShrinks(old(tails), tails, session)
      ensures tails[session].sweep.value.pending == [] || (maxChunks.Some? && Writes(run) == maxChunks.value)
      ensures maxChunks.Some? ==> Writes(run) <= maxChunks.value
      ensures disk.logs == old(disk).logs && active.Keys == old(active).Keys
    {
      hide Leads, AllKeep;
      run := [];
      ghost var s := Current();
      LeadsNowhere(setting, s);
      NothingKept();
      var persisted := 0;
      while |tails[session].sweep.value.pending| > 0 && (maxChunks.None? || persisted < maxChunks.value)
        invariant Valid() && AllKeep(run) && Leads(setting, s, run, Current())
        invariant SweepShrinks(old(tails), tails, session)
        invariant disk.logs == old(disk).logs && active.Keys == old(active).Keys
        invariant Writes(run) == persisted && (maxChunks.Some? ==> persisted <= maxChunks.value)
        decreases |tails[session].sweep.value.pending|
      {
        ghost var t := Current();
        ghost var step;
        var wrote;
        wrote, step := SweepOne(session);
        LeadsOn(setting, s, run, t, step, Current());
        KeepOn(run, step);
        run := run + step;
        persisted := persisted + if wrote then 1 else 0;
      }
    }

    /** Take one chunk off the sweep; write it unless it was written since the snapshot. */
    method SweepOne(session: SessionId) returns (wrote: bool, ghost run: seq<Step>)
      requires Valid() && session in tails && tails[session].sweep.Some?
      requires |tails[session].sweep.value.pending| > 0
      modifies this`disk, this`active, this`cells, this`tails
      ensures Valid() && Leads(setting, old(Current()), run, Current())
      ensures AllKeep(run) && Writes(run) == if wrote then 1 else 0
      ensures SweepShrinks(old(tails), tails, session)
      ensures var pending := old(tails)[session].sweep.value.pending;
              && tails[session].sweep.value.pending == pending[..|pending| - 1]
              && wrote == DirtyResident(old(Memory()), pending[|pending| - 1])
      ensures disk.logs == old(disk).logs && active.Keys == old(active).Keys
    {
      hide Legal, Apply, Exec, Leads, Writes, AllKeep, Cached, Confined;
      ghost var s := Current();
      var pending := tails[session].sweep.value.pending;
      var key := pending[|pending| - 1];
      wrote := key in active && active[key].pending > 0;
      run := [];
      LeadsNowhere(setting, s);
      if wrote {
        run := PersistChunk(key);
      }
      ghost var t := Current();
      SweptRun(run, key, session);
      PopPending(session);
      LeadsOn(setting, s, run, t, [Pop(session)], Current());
      run := run + [Pop(session)];
    }

    /** Take a clean chunk off the sweep. */
    method PopPending(session: SessionId)
      requires Valid() && session in tails && tails[session].sweep.Some?
      requires var pending := tails[session].sweep.value.pending;
               |pending| > 0 && !DirtyResident(Memory(), pending[|pending| - 1])
      modifies this`tails
      ensures Valid() && Leads(setting, old(Current()), [Pop(session)], Current())
      ensures SweepShrinks(old(tails), tails, session)
      ensures var pending := old(tails)[session].sweep.value.pending;
              tails[session].sweep.value.pending == pending[..|pending| - 1]
    {
      hide Legal, Apply, Exec, Leads, Lists;
      PopLeads(setting, Current(), session);
      var sweep := tails[session].sweep.value;
      var rest := sweep.(pending := sweep.pending[..|sweep.pending| - 1]);
      tails := tails[session := tails[session].(sweep := Some(rest))];
    }

    // -------------------------------------------------------------- fusing a batch

    /** Count the batch for every registered cell of the session its pose can see. */
    method ApplyFieldOfView(session: SessionId, sequence: nat, pose: Pose, restrict: Option<set<Cell>>)
      modifies this`cells
      ensures cells == CountView(setting, session, sequence, pose, restrict, old(cells))
    {
      var todo := cells.Keys;
      var before := cells;
      var target := CountView(setting, session, sequence, pose, restrict, before);
      while todo != {}
        invariant cells.Keys == before.Keys && todo <= before.Keys
        invariant forall k :: k in before ==> cells[k] == if k in todo then before[k] else target[k]
        decreases todo
      {
        var key :| key in todo;
        todo := todo - {key};
        if key.session == session && cells[key].fov < sequence && Allowed(restrict, key.chunk)
           && setting.inView(session, pose, key.chunk) {
          cells := cells[key := Stats(cells[key].opportunities + 1, sequence, true)];
        }
      }
      assert cells == target;
    }

    /** The resident chunk for a cell, registered and seeded from disk on first touch. */
    method ActivateChunk(key: Key)
      requires Cached()
      modifies this`active, this`order, this`cells
      ensures Cached()
      ensures active == old(active)[key := ActiveAt(setting, disk, old(Memory()), key)]
      ensures cells == old(cells)[key := StatsAt(old(Memory()), key)]
      ensures order == old(order) + if key in old(active) then [] else [key]
    {
      if key in active {
        assert active == active[key := active[key]] && cells == cells[key := cells[key]];
        assert order == order + [];
        return;
      }
      if key !in cells {
        cells := cells[key := Stats(0, 0, true)];
      }
      active := active[key := Activate(setting, disk, key)];
      order := order + [key];
      assert cells == old(cells)[key := StatsAt(old(Memory()), key)];
    }

    /** Activate a chunk for a batch and count the batch for it unless its pose already did. */
    method TouchChunk(key: Key, sequence: nat)
      requires Cached()
      modifies this`active, this`order, this`cells
      ensures Cached()
      ensures active == old(active)[key := ActiveAt(setting, disk, old(Memory()), key)]
      ensures cells == old(cells)[key := Count(StatsAt(old(Memory()), key), sequence)]
      ensures order == old(order) + if key in old(active) then [] else [key]
    {
      ActivateChunk(key);
      if cells[key].fov < sequence {
        cells := cells[key := Stats(cells[key].opportunities + 1, sequence, true)];
      }
    }

    /** Fuse one world point; `sameChunk` says the previous point fell in the same chunk. */
    method LandPoint(session: SessionId, sequence: nat, restrict: Option<set<Cell>>, w: Point, sameChunk: bool)
      returns (accepted: bool)
      requires Cached()
      requires var key := Key(session, setting.chunkOf(w.at));
               sameChunk && Allowed(restrict, key.chunk) ==> key in active && cells[key].fov >= sequence
      modifies this`active, this`order, this`cells
      ensures Cached()
      ensures Memory() == LandOne(setting, disk, session, sequence, restrict, old(Memory()), w)
      ensures var key := Key(session, setting.chunkOf(w.at));
              && accepted
                  == (Allowed(restrict, key.chunk) && ActiveAt(setting, disk, old(Memory()), key).applied < sequence)
              && (Allowed(restrict, key.chunk) ==> key in active && cells[key].fov >= sequence)
              && order == old(order) + if key in old(active) || !Allowed(restrict, key.chunk) then [] else [key]
    {
      hide Activate, AddPoint;
      var key := Key(session, setting.chunkOf(w.at));
      if !Allowed(restrict, key.chunk) {
        assert order == order + [];
        return false;
      }
      ghost var before := Memory();
      if !sameChunk {
        TouchChunk(key, sequence);
      } else {
        assert order == order + [];
        assert active == active[key := active[key]] && cells == cells[key := cells[key]];
      }
      accepted := AddToChunk(key, sequence, w);
    }

    /** Add a point to a resident chunk unless the chunk already holds the batch. */
    method AddToChunk(key: Key, sequence: nat, w: Point) returns (accepted: bool)
      requires Cached() && key in active
      modifies this`active
      ensures Cached() && accepted == (old(active)[key].applied < sequence)
      ensures var a := old(active)[key];
              active == old(active)[key := if a.applied >= sequence then a
                                           else Active(AddPoint(setting.voxelOf, a.vox, w, cells[key].opportunities),
                                                       a.pending + 1, a.applied)]
    {
      var a := active[key];
      accepted := a.applied < sequence;
      if accepted {
        active := active[key := Active(AddPoint(setting.voxelOf, a.vox, w, cells[key].opportunities), a.pending + 1,
                                       a.applied)];
      } else {
        assert active == active[key := a];
      }
    }

    /** Transform a payload's points into the world frame and fuse them, in payload order. */
    method LandPoints(session: SessionId, b: Batch, pose: Pose, restrict: Option<set<Cell>>)
      returns (touched: seq<Key>, spanned: set<Cell>)
      requires Cached()
      modifies this`active, this`order, this`cells
      ensures Cached()
      ensures Memory() == Land(setting, disk, session, b.sequence, pose, restrict, old(Memory()), b.points)
      ensures spanned == Spanned(setting, pose, b.points)
      ensures Distinct(touched)
      ensures Keys(touched) == Accepting(setting, disk, old(Memory()), session, b.sequence, pose, restrict, b.points)
      ensures Keys(touched) <= active.Keys
      ensures old(order) <= order && forall i :: |old(order)| <= i < |order| ==> Includes(session, restrict, order[i])
    {
      touched, spanned := [], {};
      ghost var before := Memory();
      NoPoints(before, session, b, pose, restrict);
      hide Land, LandOne, Spanned, Accepting, ActiveAt;
      var last: Option<Cell> := None;
      for i := 0 to |b.points|
        invariant Cached()
        invariant Memory() == Land(setting, disk, session, b.sequence, pose, restrict, before, b.points[..i])
        invariant spanned == Spanned(setting, pose, b.points[..i])
        invariant Distinct(touched)
        invariant Keys(touched) == Accepting(setting, disk, before, session, b.sequence, pose, restrict, b.points[..i])
        invariant Keys(touched) <= active.Keys
        invariant last.Some? && Allowed(restrict, last.value) ==>
                    Key(session, last.value) in active && cells[Key(session, last.value)].fov >= b.sequence
        invariant old(order) <= order
        invariant forall j :: |old(order)| <= j < |order| ==> Includes(session, restrict, order[j])
      {
        var w := Place(setting, pose, b.points[i]);
        var chunk := setting.chunkOf(w.at);
        var key := Key(session, chunk);
        NextPoint(before, session, b, pose, restrict, i);
        var accepted := LandPoint(session, b.sequence, restrict, w, last == Some(chunk));
        last := Some(chunk);
        spanned := spanned + {chunk};
        ghost var t := touched;
        if accepted && key !in touched {
          touched := touched + [key];
        }
        assert Keys(touched) == Keys(t) + if accepted then {key} else {};
      }
      assert b.points[..|b.points|] == b.points;
    }

    lemma NoPoints(mem: Mem, session: SessionId, b: Batch, pose: Pose, restrict: Option<set<Cell>>)
      ensures Land(setting, disk, session, b.sequence, pose, restrict, mem, b.points[..0]) == mem
      ensures Spanned(setting, pose, b.points[..0]) == {}
      ensures Accepting(setting, disk, mem, session, b.sequence, pose, restrict, b.points[..0]) == {}
    {
    }

    /** One more point of the payload: what it adds to each of the batch's running results. */
    lemma NextPoint(mem: Mem, session: SessionId, b: Batch, pose: Pose, restrict: Option<set<Cell>>, i: nat)
      requires i < |b.points|
      ensures var w := Place(setting, pose, b.points[i]);
              var key := Key(session, setting.chunkOf(w.at));
              var m := Land(setting, disk, session, b.sequence, pose, restrict, mem, b.points[..i]);
              && Land(setting, disk, session, b.sequence, pose, restrict, mem, b.points[..i + 1])
                 == LandOne(setting, disk, session, b.sequence, restrict, m, w)
              && Spanned(setting, pose, b.points[..i + 1]) == Spanned(setting, pose, b.points[..i]) + {key.chunk}
              && Accepting(setting, disk, mem, session, b.sequence, pose, restrict, b.points[..i + 1])
                 == Accepting(setting, disk, mem, session, b.sequence, pose, restrict, b.points[..i])
                    + if Allowed(restrict, key.chunk) && ActiveAt(setting, disk, m, key).applied < b.sequence then {key}
                        else {}
    {
      assert b.points[..i + 1][..i] == b.points[..i];
      var key := Key(session, setting.chunkOf(Place(setting, pose, b.points[i]).at));
      LandKeepsApplied(setting, disk, session, b.sequence, pose, restrict, mem, b.points[..i], key);
      AcceptingStep(setting, disk, mem, session, b.sequence, pose, restrict, b.points[..i + 1]);
      hide ActiveAt, Accepting;
    }

    /**
     * Stamp the chunks that accepted the batch, make them the most recently used, and write those
     * that crossed the flush threshold.
     */
    method StampTouched(touched: seq<Key>, sequence: nat, allowPersistence: bool) returns (ghost run: seq<Step>)
      requires Valid() && Distinct(touched) && Keys(touched) <= active.Keys
      modifies this`disk, this`active, this`order, this`cells
      ensures Valid() && WritesBack(run) && active.Keys == old(active).Keys
      ensures Leads(setting, State(old(disk), Mark(old(Memory()), Keys(touched), sequence)), run, Current())
      ensures MovedToBack(old(order), order, touched)
      ensures forall k :: k in touched ==>
                active[k].pending == if allowPersistence && old(active)[k].pending >= flushPointThreshold then 0
                                     else old(active)[k].pending
    {
      hide Leads, Mark, MovedToBack;
      run := [];
      ghost var s := State(disk, Mark(Memory(), Keys(touched), sequence));
      LeadsNowhere(setting, s);
      assert touched[0..] == touched && touched[..0] == [];
      MovedNone(order);
      for i := 0 to |touched|
        invariant Valid() && WritesBack(run) && active.Keys == old(active).Keys
        invariant Leads(setting, s, run, State(disk, Mark(Memory(), Keys(touched[i..]), sequence)))
        invariant MovedToBack(old(order), order, touched[..i])
        invariant StampedTo(old(active), active, touched, i, allowPersistence)
      {
        hide ChunkStore.Valid, ChunkStore.Cached, PendingAfter, Distinct, StampedTo;
        assert touched[i] in Keys(touched);
        StampedOneMore(old(active), active, touched, i, allowPersistence);
        ghost var from := State(disk, Mark(Memory(), Keys(touched[i..]), sequence));
        ghost var step := StampChunk(old(order), touched, i, sequence, allowPersistence);
        LeadsOn(setting, s, run, from, step, State(disk, Mark(Memory(), Keys(touched[i + 1..]), sequence)));
        run := run + step;
      }
      MarkNothing(Memory(), sequence);
      assert touched[..|touched|] == touched && Keys(touched[|touched|..]) == {};
    }

    /** Unsaved points left once a touched chunk has had its chance to be written. */
    function PendingAfter(a: Active, allowPersistence: bool): nat {
      if allowPersistence && a.pending >= flushPointThreshold then 0 else a.pending
    }

    /** The first `i` touched chunks have what stamping leaves pending; the others are as they were. */
    ghost predicate StampedTo(was: map<Key, Active>, now: map<Key, Active>, touched: seq<Key>, i: nat,
                              allowPersistence: bool)
    {
      && i <= |touched| && now.Keys == was.Keys && Keys(touched) <= was.Keys
      && forall k :: k in now ==>
           if k in touched[..i] then now[k].pending == PendingAfter(was[k], allowPersistence) else now[k] == was[k]
    }

    lemma StampedOneMore(was: map<Key, Active>, now: map<Key, Active>, touched: seq<Key>, i: nat,
                         allowPersistence: bool)
      requires StampedTo(was, now, touched, i, allowPersistence) && i < |touched| && Distinct(touched)
      ensures touched[i] in now && now[touched[i]] == was[touched[i]]
      ensures forall later: map<Key, Active> ::
                && later.Keys == now.Keys && (forall k :: k in later && k != touched[i] ==> later[k] == now[k])
                && later[touched[i]].pending == PendingAfter(was[touched[i]], allowPersistence) ==>
                  StampedTo(was, later, touched, i + 1, allowPersistence)
    {
      assert touched[i] in Keys(touched);
      assert touched[..i + 1] == touched[..i] + [touched[i]];
    }

    method StampChunk(ghost before: seq<Key>, touched: seq<Key>, i: nat, sequence: nat, allowPersistence: bool)
      returns (ghost run: seq<Step>)
      requires Valid() && Distinct(touched) && Keys(touched) <= active.Keys && i < |touched|
      requires MovedToBack(before, order, touched[..i])
      modifies this`disk, this`active, this`order, this`cells
      ensures Valid() && WritesBack(run) && active.Keys == old(active).Keys
      ensures Leads(setting, State(old(disk), Mark(old(Memory()), Keys(touched[i..]), sequence)), run,
                    State(disk, Mark(Memory(), Keys(touched[i + 1..]), sequence)))
      ensures MovedToBack(before, order, touched[..i + 1])
      ensures forall k :: k in active && k != touched[i] ==> active[k] == old(active)[k]
      ensures active[touched[i]].pending == PendingAfter(old(active)[touched[i]], allowPersistence)
    {
      hide Leads, Apply, Legal, MovedToBack, Without;
      var key := touched[i];
      assert key in Keys(touched);
      ghost var from := State(disk, Mark(Memory(), Keys(touched[i..]), sequence));
      MovedOneMore(before, order, touched, i);
      assert Lists(Without(order, key) + [key], active) by { WithoutKeeps(order, key); }
      StampOne(active, touched, i, sequence);
      active := active[key := active[key].(applied := sequence)];
      order := Without(order, key) + [key];
      assert from == State(disk, Mark(Memory(), Keys(touched[i + 1..]), sequence));
      run := [];
      LeadsNowhere(setting, from);
      if allowPersistence && active[key].pending >= flushPointThreshold {
        ghost var t := Current();
        run := PersistChunk(key);
        PersistPastMark(setting, t, key, Keys(touched[i + 1..]), sequence);
      }
    }

    /** Count the batch's opportunities, then land its points; only the stamps are still missing. */
    method CountAndLand(session: SessionId, b: Batch, pose: Pose, restrict: Option<set<Cell>>)
      returns (touched: seq<Key>, spanned: set<Cell>)
      requires Valid() && session in disk.logs && pose == PoseOf(setting, session, b)
      modifies this`active, this`order, this`cells
      ensures Valid() && Distinct(touched) && Keys(touched) <= active.Keys
      ensures Mark(Memory(), Keys(touched), b.sequence) == FuseMem(setting, disk, old(Memory()), session, b, restrict)
      ensures active.Keys == FuseMem(setting, disk, old(Memory()), session, b, restrict).active.Keys
      ensures Keys(touched) == Accepting(setting, disk, old(Memory()), session, b.sequence, pose, restrict, b.points)
      ensures spanned == Spanned(setting, pose, b.points)
      ensures old(order) <= order && forall i :: |old(order)| <= i < |order| ==> Includes(session, restrict, order[i])
      ensures forall k :: k in touched ==> Includes(session, restrict, k)
    {
      hide Land, LandOne, Spanned;
      ghost var before := Memory();
      ApplyFieldOfView(session, b.sequence, pose, restrict);
      ghost var counted := Memory();
      LandKeepsConfined(setting, disk, session, b, pose, restrict, counted);
      touched, spanned := LandPoints(session, b, pose, restrict);
      AcceptingIgnoresCounters(setting, disk, before, counted, session, b.sequence, pose, restrict, b.points);
      assert forall k :: k in touched ==> k in Keys(touched);
    }

    /**
     * Fuse a batch into the chunks its points fall in, or only those of `restrict` when rebuilding.
     * The chunks reported are those that did not hold it yet; each voxel of one that stays resident
     * has grown by the batch's points, sum by sum, and all other residents are as they were.
     */
    method FuseBatch(session: SessionId, b: Batch, pose: Pose, allowPersistence: bool, restrict: Option<set<Cell>>)
      returns (touched: seq<Key>, spanned: set<Cell>, ghost run: seq<Step>, ghost ranked: seq<Key>)
      requires Valid() && session in disk.logs && pose == PoseOf(setting, session, b)
      modifies this`disk, this`active, this`order, this`cells
      ensures Valid() && WritesBack(run)
      ensures Leads(setting, State(old(disk), FuseMem(setting, old(disk), old(Memory()), session, b, restrict)), run,
                    Current())
      ensures spanned == Spanned(setting, pose, b.points)
      ensures Ranks(session, restrict, old(order), ranked, touched)
      ensures Keys(ranked) == FuseMem(setting, old(disk), old(Memory()), session, b, restrict).active.Keys
      ensures order == if allowPersistence then Newest(ranked, maxDirtyChunks) else ranked
      ensures allowPersistence ==> |order| <= maxDirtyChunks
      ensures Distinct(touched)
      ensures forall k :: k in touched <==>
                && k.session == session && k.chunk in spanned && Allowed(restrict, k.chunk)
                && old(ActiveAt(setting, disk, Memory(), k)).applied < b.sequence
      ensures forall k, c :: k in touched && k in active ==>
                Gathers(setting, pose, k.chunk, b.points, old(ActiveAt(setting, disk, Memory(), k)).vox, active[k].vox,
                        cells[k].opportunities, c)
      ensures forall k :: k in active && k !in touched ==>
                active[k].vox == old(ActiveAt(setting, disk, Memory(), k)).vox
      ensures forall k :: k in touched && k in active ==>
                active[k].pending == Unsaved(old(ActiveAt(setting, disk, Memory(), k)), pose, k.chunk, b.points,
                                             allowPersistence)
    {
      hide Leads, FuseMem, Gathers, ActiveAt, Arrivals, Unsaved;
      ghost var fused := State(disk, FuseMem(setting, disk, Memory(), session, b, restrict));
      touched, spanned, run := FuseAndStamp(session, b, pose, allowPersistence, restrict);
      ranked := order;
      assert Keys(ranked) == active.Keys;
      if allowPersistence {
        ghost var t := Current();
        ghost var evict := EnforceActiveLimit();
        LeadsOn(setting, fused, run, t, evict, Current());
        run := run + evict;
      }
      FusedStaysGathered(setting, old(disk), old(Memory()), session, b, restrict, run, Current());
      AcceptingAre(old(disk), old(Memory()), session, b.sequence, pose, restrict, b.points, touched);
    }

    /** What is left unsaved of a chunk that accepted a batch. */
    ghost function Unsaved(a: Active, pose: Pose, chunk: Cell, points: seq<Point>, allowPersistence: bool): nat
      reads this`setting
    {
      var unsaved := a.pending + Arrivals(setting, pose, chunk, points);
      if allowPersistence && unsaved >= flushPointThreshold then 0 else unsaved
    }

    /** Fuse a batch, stamp the chunks that accepted it and write those over the threshold. */
    method FuseAndStamp(session: SessionId, b: Batch, pose: Pose, allowPersistence: bool, restrict: Option<set<Cell>>)
      returns (touched: seq<Key>, spanned: set<Cell>, ghost run: seq<Step>)
      requires Valid() && session in disk.logs && pose == PoseOf(setting, session, b)
      modifies this`disk, this`active, this`order, this`cells
      ensures Valid() && WritesBack(run) && Distinct(touched)
      ensures Leads(setting, State(old(disk), FuseMem(setting, old(disk), old(Memory()), session, b, restrict)), run,
                    Current())
      ensures spanned == Spanned(setting, pose, b.points)
      ensures Ranks(session, restrict, old(order), order, touched)
      ensures active.Keys == FuseMem(setting, old(disk), old(Memory()), session, b, restrict).active.Keys
      ensures Keys(touched)
              == Accepting(setting, old(disk), old(Memory()), session, b.sequence, pose, restrict, b.points)
      ensures forall k :: k in touched && k in active ==>
                active[k].pending == Unsaved(old(ActiveAt(setting, disk, Memory(), k)), pose, k.chunk, b.points,
                                             allowPersistence)
    {
      hide Leads, FuseMem, Mark, ActiveAt, Arrivals, Accepting, Ranks, MovedToBack;
      touched, spanned := CountAndLand(session, b, pose, restrict);
      ghost var landed := order;
      LandedPending(old(disk), old(Memory()), Memory(), session, b, restrict, touched);
      run := StampTouched(touched, b.sequence, allowPersistence);
      RanksAfterMove(session, restrict, old(order), landed, order, touched);
    }

    /** Each accepting chunk has one more unsaved point for each that arrived in it. */
    lemma LandedPending(disk: Disk, before: Mem, landed: Mem, session: SessionId, b: Batch,
                        restrict: Option<set<Cell>>, touched: seq<Key>)
      requires Mark(landed, Keys(touched), b.sequence) == FuseMem(setting, disk, before, session, b, restrict)
      requires Keys(touched) == Accepting(setting, disk, before, session, b.sequence, PoseOf(setting, session, b),
                                          restrict, b.points)
      ensures forall k :: k in touched && k in landed.active ==>
                landed.active[k].pending == ActiveAt(setting, disk, before, k).pending
                                            + Arrivals(setting, PoseOf(setting, session, b), k.chunk, b.points)
    {
      hide FuseMem, Accepting, ActiveAt, Arrivals;
      forall k | k in touched && k in landed.active
        ensures landed.active[k].pending == ActiveAt(setting, disk, before, k).pending
                                            + Arrivals(setting, PoseOf(setting, session, b), k.chunk, b.points)
      {
        assert k in Keys(touched);
        assert k in Mark(landed, Keys(touched), b.sequence).active;
        FusedPending(setting, disk, before, session, b, restrict, k);
      }
    }

    lemma AcceptingAre(disk: Disk, mem: Mem, session: SessionId, sequence: nat, pose: Pose,
                       restrict: Option<set<Cell>>, points: seq<Point>, touched: seq<Key>)
      requires Keys(touched) == Accepting(setting, disk, mem, session, sequence, pose, restrict, points)
      ensures forall k :: k in touched <==>
                && k.session == session && k.chunk in Spanned(setting, pose, points) && Allowed(restrict, k.chunk)
                && ActiveAt(setting, disk, mem, k).applied < sequence
      ensures forall k :: k in touched <==>
                k in Accepting(setting, disk, mem, session, sequence, pose, restrict, points)
    {
      hide ActiveAt, Spanned;
      forall k ensures k in touched <==> k in Keys(touched) {}
      forall k: Key | k.session == session ensures k == Key(session, k.chunk) {}
    }

    // -------------------------------------------------------------- logging and replay

    /** The index describes the first `n` records of the session as they were fused. */
    ghost predicate Indexed(session: SessionId, n: nat) reads this {
      && session in disk.logs && session in index
      && n <= |index[session]| && n <= |disk.logs[session].records|
      && forall i :: 0 <= i < n ==> index[session][i] == RowFor(setting, session, disk.logs[session].records[i], i)
    }

    method RecordFusedBatch(session: SessionId, at: nat, b: Batch, pose: Pose, spanned: set<Cell>)
      requires Indexed(session, at) && at < |disk.logs[session].records| && disk.logs[session].records[at] == b
      requires pose == PoseOf(setting, session, b) && spanned == Spanned(setting, pose, b.points)
      modifies this`index
      ensures Indexed(session, at + 1)
      ensures at < |index[session]|
              && index[session][at] == IndexRow(b.sequence, b.poseSequence, at, b.pose, pose, spanned)
      ensures index.Keys == old(index).Keys && forall s :: s in index && s != session ==> index[s] == old(index)[s]
      ensures forall i :: at < i < |old(index)[session]| ==>
                i < |index[session]| && index[session][i] == old(index)[session][i]
      ensures |index[session]| == if at < |old(index)[session]| then |old(index)[session]| else at + 1
    {
      var row := IndexRow(b.sequence, b.poseSequence, at, b.pose, pose, spanned);
      var rows := index[session];
      index := index[session := if at < |rows| then rows[at := row] else rows + [row]];
    }

    /** Fuse the next logged record of a session and record it in the index. */
    method FuseNext(session: SessionId) returns (touched: seq<Key>, ghost run: seq<Step>)
      requires Valid() && session in disk.logs
      requires tails[session].fused < |disk.logs[session].records| && Indexed(session, tails[session].fused)
      modifies this`disk, this`active, this`order, this`cells, this`tails, this`index
      ensures Valid() && Leads(setting, old(Current()), run, Current())
      ensures disk.logs == old(disk).logs && |order| <= maxDirtyChunks
      ensures tails == old(tails)[session := old(tails)[session].(fused := old(tails)[session].fused + 1)]
      ensures Indexed(session, tails[session].fused)
      ensures |old(index)[session]| == old(tails)[session].fused ==> |index[session]| == tails[session].fused
      ensures forall s :: s in old(index) && s != session ==> s in index && index[s] == old(index)[s]
      ensures forall b :: Stores(session, b, run)
      ensures var b := old(disk).logs[session].records[old(tails)[session].fused];
              && Distinct(touched)
              && forall k :: k in touched <==>
                   && k.session == session && k.chunk in Spanned(setting, PoseOf(setting, session, b), b.points)
                   && old(ActiveAt(setting, disk, Memory(), k)).applied < b.sequence
    {
      hide Leads, Apply, Legal, FuseMem, Keys, Ranks, Newest, Gathers, Spanned;
      ghost var s := Current();
      var at := tails[session].fused;
      var b := disk.logs[session].records[at];
      var pose := PoseOf(setting, session, b);
      tails := tails[session := tails[session].(fused := at + 1)];
      ghost var fused := State(disk, FuseMem(setting, disk, Memory(), session, b, None));
      FuseStep(setting, s, session, tails);
      var spanned;
      ghost var ranked;
      touched, spanned, run, ranked := FuseBatch(session, b, pose, true, None);
      WriteBackKeepsLogs(setting, fused, run, Current());
      LeadsOn(setting, s, [Fuse(session)], fused, run, Current());
      run := [Fuse(session)] + run;
      RecordFusedBatch(session, at, b, pose, spanned);
    }

    /** The chunks a payload falls in under a pose, or nothing past the limit. */
    method ChunkKeysForPayload(points: seq<Point>, pose: Pose, limit: nat) returns (chunks: Option<set<Cell>>)
      ensures chunks.Some? <==> |Spanned(setting, pose, points)| <= limit
      ensures chunks.Some? ==> chunks.value == Spanned(setting, pose, points)
    {
      var found: set<Cell> := {};
      for i := 0 to |points|
        invariant found == Spanned(setting, pose, points[..i]) && |found| <= limit
      {
        found := found + {setting.chunkOf(Place(setting, pose, points[i]).at)};
        assert points[..i + 1][..i] == points[..i];
        if |found| > limit {
          SpannedGrows(setting, pose, points, i + 1);
          return None;
        }
      }
      assert points[..|points|] == points;
      return Some(found);
    }

    /**
     * The durable ingest path: append the batch to the log, make room, fuse it, and index it. A batch
     * that fans out too far under its logged pose is refused before anything changes.
     */
    method StoreAcceptedBatchDurably(session: SessionId, b: Batch) returns (outcome: Outcome, ghost run: seq<Step>)
      requires Valid() && CaughtUp(Current(), session) && !disk.logs[session].torn
      requires b.sequence > Position(disk.logs[session].records, |disk.logs[session].records|)
      requires Indexed(session, tails[session].fused)
      modifies this`disk, this`active, this`order, this`cells, this`tails, this`index
      ensures Valid() && Leads(setting, old(Current()), run, Current())
      ensures Stores(session, b, run)
      ensures outcome.Rejected? <==> |Spanned(setting, b.pose, b.points)| > maxChunksPerBatch
                                     || |Spanned(setting, b.pose, b.points)| > maxDirtyChunks
      ensures outcome.Rejected? ==> run == [] && Current() == old(Current()) && index == old(index)
      ensures outcome.Fused? ==>
                && disk.logs
                    == old(disk).logs[session := old(disk).logs[session].(records := old(disk).logs[session].records
                                                                          + [b])]
                && outcome.pose == setting.effective(session, b.poseSequence, b.pose)
                && |order| <= maxDirtyChunks
      ensures outcome.Fused? && Stable(setting.voxelOf) && old(Inv(setting, Current())) ==>
                && Distinct(outcome.touched)
                && (forall k :: k in outcome.touched <==>
                      k.session == session && k.chunk in Spanned(setting, outcome.pose, b.points))
                && (forall k: Key :: k.session == session ==>
                      Gained(setting, old(Current()), Current(), session, b, k))
      ensures CaughtUp(Current(), session) && Indexed(session, tails[session].fused)
      ensures forall s :: s in old(tails) && s != session ==> s in tails && tails[s] == old(tails)[s]
      ensures forall s :: s in old(index) && s != session ==> s in index && index[s] == old(index)[s]
    {
      hide Leads, Confined, Spanned, Gained, Inv;
      ghost var before := Current();
      LeadsNowhere(setting, Current());
      var chunks := ChunkKeysForPayload(b.points, b.pose, maxChunksPerBatch);
      if chunks.None? || |chunks.value| > maxDirtyChunks {
        return Rejected, [];
      }
      var touched;
      touched, run := LogAndFuse(session, b, chunks.value);
      outcome := Fused(touched, PoseOf(setting, session, b));
      if Stable(setting.voxelOf) && Inv(setting, before) {
        LedInv(setting, before, run, Current());
        forall k: Key | k.session == session ensures Gained(setting, before, Current(), session, b, k) {
          StoredGains(setting, before, Current(), session, b, k);
        }
      }
    }

    /** Append the batch to the log, make room for the chunks it spans, and fuse it. */
    method LogAndFuse(session: SessionId, b: Batch, chunks: set<Cell>) returns (touched: seq<Key>, ghost run: seq<Step>)
      requires Valid() && CaughtUp(Current(), session) && !disk.logs[session].torn && |chunks| <= maxDirtyChunks
      requires b.sequence > Position(disk.logs[session].records, |disk.logs[session].records|)
      requires Indexed(session, tails[session].fused)
      modifies this`disk, this`active, this`order, this`cells, this`tails, this`index
      ensures Valid() && Leads(setting, old(Current()), run, Current()) && Stores(session, b, run)
      ensures disk.logs
              == old(disk).logs[session := old(disk).logs[session].(records := old(disk).logs[session].records + [b])]
      ensures |order| <= maxDirtyChunks && CaughtUp(Current(), session) && Indexed(session, tails[session].fused)
      ensures forall s :: s in old(tails) && s != session ==> s in tails && tails[s] == old(tails)[s]
      ensures forall s :: s in old(index) && s != session ==> s in index && index[s] == old(index)[s]
      ensures Distinct(touched)
      ensures old(Inv(setting, Current())) ==> forall k :: k in touched <==>
                k.session == session && k.chunk in Spanned(setting, PoseOf(setting, session, b), b.points)
    {
      hide Leads, Confined, WritesBack, Stores, Spanned, ActiveAt, Inv;
      ghost var s := Current();
      run := AppendToLog(session, b);
      ghost var t := Current();
      ghost var room := MakeRoom(session, b, chunks);
      if Inv(setting, s) {
        forall k: Key | k.session == session ensures ActiveAt(setting, disk, Memory(), k).applied < b.sequence {
          NoneHolds(setting, s, room, Current(), session, b, k);
        }
      }
      LeadsOn(setting, s, run, t, room, Current());
      StoresOn(session, b, run, room);
      run := run + room;
      ghost var u := Current();
      ghost var fuse;
      touched, fuse := FuseNext(session);
      LeadsOn(setting, s, run, u, fuse, Current());
      StoresOn(session, b, run, fuse);
      run := run + fuse;
    }

    method MakeRoom(session: SessionId, ghost b: Batch, chunks: set<Cell>) returns (ghost run: seq<Step>)
      requires Valid() && |chunks| <= maxDirtyChunks
      modifies this`disk, this`active, this`order, this`cells
      ensures Valid() && Leads(setting, old(Current()), run, Current()) && Stores(session, b, run) && WritesBack(run)
      ensures disk.logs == old(disk).logs && tails == old(tails)
    {
      hide Leads, Confined, WritesBack, Stores;
      ChunksOfSize(session, chunks);
      run := PrepareActiveCapacity(ChunksOf(session, chunks));
      WriteBackKeepsLogs(setting, old(Current()), run, Current());
      WritesBackStores(session, b, run);
    }

    method AppendToLog(session: SessionId, b: Batch) returns (ghost run: seq<Step>)
      requires Valid() && CaughtUp(Current(), session) && !disk.logs[session].torn
      requires b.sequence > Position(disk.logs[session].records, |disk.logs[session].records|)
      requires Indexed(session, tails[session].fused)
      modifies this`disk
      ensures Valid() && Leads(setting, old(Current()), run, Current())
      ensures disk.logs
              == old(disk).logs[session := old(disk).logs[session].(records := old(disk).logs[session].records + [b])]
      ensures Stores(session, b, run)
      ensures Indexed(session, tails[session].fused)
      ensures Legal(setting, old(Current()), Append(session, b))
              && Current() == Apply(setting, old(Current()), Append(session, b))
    {
      run := [Append(session, b)];
      ExecOne(setting, Current(), Append(session, b));
      disk := disk.(logs := disk.logs[session := disk.logs[session].(records := disk.logs[session].records + [b])]);
    }

    /** Replay a session's log from where the cache stands, then drop any torn tail. */
    method ReplayLog(session: SessionId) returns (ghost run: seq<Step>)
      requires Valid() && session in disk.logs && tails[session].fused <= |disk.logs[session].records|
      requires Indexed(session, tails[session].fused)
      modifies this`disk, this`active, this`order, this`cells, this`tails, this`index
      ensures Valid() && Leads(setting, old(Current()), run, Current())
      ensures disk.logs == old(disk).logs[session := old(disk).logs[session].(torn := false)]
      ensures tails == old(tails)[session := old(tails)[session].(fused := |disk.logs[session].records|)]
      ensures Indexed(session, tails[session].fused)
      ensures |old(index)[session]| == old(tails)[session].fused ==> |index[session]| == tails[session].fused
      ensures forall s :: s in old(index) && s != session ==> s in index && index[s] == old(index)[s]
    {
      hide Leads;
      ghost var s := Current();
      LeadsNowhere(setting, s);
      run := [];
      while tails[session].fused < |disk.logs[session].records|
        invariant Valid() && Leads(setting, s, run, Current())
        invariant disk.logs == old(disk).logs && tails[session].fused <= |disk.logs[session].records|
        invariant tails == old(tails)[session := old(tails)[session].(fused := tails[session].fused)]
        invariant Indexed(session, tails[session].fused)
        invariant |old(index)[session]| == old(tails)[session].fused ==> |index[session]| == tails[session].fused
        invariant forall s :: s in old(index) && s != session ==> s in index && index[s] == old(index)[s]
        decreases |disk.logs[session].records| - tails[session].fused
      {
        ghost var t := Current();
        var touched;
        ghost var step;
        touched, step := FuseNext(session);
        LeadsOn(setting, s, run, t, step, Current());
        run := run + step;
      }
      ghost var t := Current();
      ghost var step := TruncateLog(session);
      LeadsOn(setting, s, run, t, step, Current());
      run := run + step;
    }

    method TruncateLog(session: SessionId) returns (ghost run: seq<Step>)
      requires Valid() && CaughtUp(Current(), session) && Indexed(session, tails[session].fused)
      modifies this`disk
      ensures Valid() && Leads(setting, old(Current()), run, Current())
      ensures disk.logs == old(disk).logs[session := old(disk).logs[session].(torn := false)]
      ensures Indexed(session, tails[session].fused)
    {
      run := [Truncate(session)];
      ExecOne(setting, Current(), Truncate(session));
      disk := disk.(logs := disk.logs[session := disk.logs[session].(torn := false)]);
    }
  }

  /** The steps storing a batch takes: append it, fuse it, write chunks back to make room. */
  predicate Stores(session: SessionId, b: Batch, run: seq<Step>) {
    forall i :: 0 <= i < |run| ==>
      run[i] == Append(session, b) || run[i] == Fuse(session) || run[i].Persist? || run[i].Release?
  }

  lemma StoresOn(session: SessionId, b: Batch, first: seq<Step>, second: seq<Step>)
    requires Stores(session, b, first) && Stores(session, b, second)
    ensures Stores(session, b, first + second)
  {
  }

  lemma WritesBackStores(session: SessionId, b: Batch, run: seq<Step>)
    requires WritesBack(run)
    ensures Stores(session, b, run)
  {
  }

  function Least(a: nat, b: nat): nat {
    if a < b then a else b
  }

  lemma {:induction false} ChunksOfSize(session: SessionId, chunks: set<Cell>)
    ensures |ChunksOf(session, chunks)| == |chunks|
    decreases |chunks|
  {
    if c :| c in chunks {
      ChunksOfSize(session, chunks - {c});
      assert ChunksOf(session, chunks) == ChunksOf(session, chunks - {c}) + {Key(session, c)};
      assert Key(session, c) !in ChunksOf(session, chunks - {c});
    } else {
      assert ChunksOf(session, chunks) == {};
    }
  }

  lemma {:induction false} SpannedGrows(g: Setting, pose: Pose, points: seq<Point>, n: nat)
    requires n <= |points|
    ensures Spanned(g, pose, points[..n]) <= Spanned(g, pose, points)
    ensures |Spanned(g, pose, points[..n])| <= |Spanned(g, pose, points)|
    decreases |points|
  {
    if n < |points| {
      SpannedGrows(g, pose, points[..|points| - 1], n);
      assert points[..|points| - 1][..n] == points[..n];
      assert Spanned(g, pose, points) == Spanned(g, pose, points[..n])
          + (Spanned(g, pose, points) - Spanned(g, pose, points[..n]));
    } else {
      assert points[..n] == points;
    }
  }

  /** The LRU order after fusing: the touched chunks last, in the order they were touched. */
  ghost predicate Ranks(session: SessionId, restrict: Option<set<Cell>>, before: seq<Key>, ranked: seq<Key>,
                        touched: seq<Key>) {
    && Distinct(ranked) && Keys(before) <= Keys(ranked)
    && |touched| <= |ranked| && ranked[|ranked| - |touched|..] == touched
    && (forall k :: k in ranked && k !in before ==> Includes(session, restrict, k))
    && (restrict.Some? && Behind(before, ChunksOf(session, restrict.value)) ==>
          Behind(ranked, ChunksOf(session, restrict.value)))
  }

  function ChunksOf(session: SessionId, chunks: set<Cell>): set<Key> {
    set c | c in chunks :: Key(session, c)
  }

  /** The state machine's fusing step, with the tail advanced first. */
  lemma FuseStep(g: Setting, s: State, session: SessionId, tails: map<SessionId, Tail>)
    requires Confined(s) && session in s.disk.logs && session in s.mem.tails
    requires s.mem.tails[session].fused < |s.disk.logs[session].records|
    requires tails == s.mem.tails[session := s.mem.tails[session].(fused := s.mem.tails[session].fused + 1)]
    ensures var b := s.disk.logs[session].records[s.mem.tails[session].fused];
            var m := FuseMem(g, s.disk, s.mem.(tails := tails), session, b, None);
            && m.tails == tails
            && Leads(g, s, [Fuse(session)], State(s.disk, m))
  {
    var b := s.disk.logs[session].records[s.mem.tails[session].fused];
    ExecOne(g, s, Fuse(session));
    FuseIgnoresTails(g, s.disk, s.mem, tails, session, b, None);
    FusePerChunk(g, s.disk, s.mem, session, b, None, Key(session, Cell(0, 0, 0)));
    hide FuseMem;
    assert Apply(g, s, Fuse(session)) == State(s.disk, FuseMem(g, s.disk, s.mem.(tails := tails), session, b, None));
  }

  lemma NothingKept()
    ensures AllKeep([]) && Writes([]) == 0
  {
  }

  /** One swept chunk: at most one write, then off the snapshot. */
  lemma SweptRun(run: seq<Step>, key: Key, session: SessionId)
    requires run == [] || run == [Persist(key)]
    ensures AllKeep(run + [Pop(session)]) && Writes(run + [Pop(session)]) == |run|
  {
    assert (run + [Pop(session)])[..|run|] == run;
    assert run != [] ==> run[..0] == [];
  }

  lemma MarkNothing(mem: Mem, sequence: nat)
    ensures Mark(mem, {}, sequence) == mem
  {
    assert Mark(mem, {}, sequence).active == mem.active;
  }

  /** Chunks activated for a batch go behind the others, then the touched ones move to the very end. */
  lemma RanksAfterMove(session: SessionId, restrict: Option<set<Cell>>, before: seq<Key>, landed: seq<Key>,
                       ranked: seq<Key>, touched: seq<Key>)
    requires before <= landed && MovedToBack(landed, ranked, touched)
    requires forall i :: |before| <= i < |landed| ==> Includes(session, restrict, landed[i])
    requires forall k :: k in touched ==> Includes(session, restrict, k)
    ensures Ranks(session, restrict, before, ranked, touched)
  {
    forall k | k in ranked && k !in before
      ensures Includes(session, restrict, k)
    {
      assert k in Keys(ranked);
      assert k in landed;
    }
    forall k | k in before ensures k in landed {}
    if restrict.Some? && Behind(before, ChunksOf(session, restrict.value)) {
      LandedBehind(session, restrict.value, before, landed);
      forall k | k in Keys(touched) ensures k in ChunksOf(session, restrict.value) {
        assert k == Key(session, k.chunk);
      }
    }
  }

  lemma LandedBehind(session: SessionId, restrict: set<Cell>, before: seq<Key>, landed: seq<Key>)
    requires before <= landed && Behind(before, ChunksOf(session, restrict))
    requires forall i :: |before| <= i < |landed| ==> Includes(session, Some(restrict), landed[i])
    ensures Behind(landed, ChunksOf(session, restrict))
  {
    forall i | |before| <= i < |landed|
      ensures landed[i] in ChunksOf(session, restrict)
    {
      assert landed[i] == Key(session, landed[i].chunk);
    }
  }

  lemma LandKeepsConfined(g: Setting, disk: Disk, session: SessionId, b: Batch, pose: Pose, restrict: Option<set<Cell>>,
                          mem: Mem)
    requires Confined(State(disk, mem)) && session in disk.logs
    ensures Confined(State(disk, Land(g, disk, session, b.sequence, pose, restrict, mem, b.points)))
  {
    forall k: Key {
      LandPerChunk(g, disk, session, b.sequence, pose, restrict, mem, b.points, k);
    }
  }

  lemma AcceptingIgnoresCounters(g: Setting, disk: Disk, mem: Mem, mem': Mem, session: SessionId, sequence: nat,
                                 pose: Pose,
                                 restrict: Option<set<Cell>>, points: seq<Point>)
    requires mem.active == mem'.active
    ensures Accepting(g, disk, mem, session, sequence, pose, restrict, points)
         == Accepting(g, disk, mem', session, sequence, pose, restrict, points)
  {
    assert forall k :: ActiveAt(g, disk, mem, k) == ActiveAt(g, disk, mem', k);
  }

  lemma StampOne(active: map<Key, Active>, touched: seq<Key>, i: nat, sequence: nat)
    requires i < |touched| && Distinct(touched) && touched[i] in active
    ensures Mark(Mem(active[touched[i] := active[touched[i]].(applied := sequence)], map[], map[]),
                 Keys(touched[i + 1..]), sequence).active
         == Mark(Mem(active, map[], map[]), Keys(touched[i..]), sequence).active
  {
    assert touched[i..] == [touched[i]] + touched[i + 1..];
    assert Keys(touched[i..]) == {touched[i]} + Keys(touched[i + 1..]);
  }

  /** Writing one chunk does not depend on whether others have been stamped yet. */
  lemma PersistPastMark(g: Setting, s: State, k: Key, rest: set<Key>, sequence: nat)
    requires Legal(g, s, Persist(k)) && k !in rest
    ensures var t := Apply(g, s, Persist(k));
            Leads(g, State(s.disk, Mark(s.mem, rest, sequence)), [Persist(k)],
                  State(t.disk, Mark(t.mem, rest, sequence)))
  {
    var marked := State(s.disk, Mark(s.mem, rest, sequence));
    var t := Apply(g, s, Persist(k));
    ExecOne(g, marked, Persist(k));
    assert Apply(g, marked, Persist(k)).mem.active == Mark(t.mem, rest, sequence).active;
  }

  /** The key belongs to the session and may be fused into. */
  ghost predicate Includes(session: SessionId, restrict: Option<set<Cell>>, k: Key) {
    k.session == session && Allowed(restrict, k.chunk)
  }

  /** The session's sweep kept its offset and only lost pending chunks; nothing else moved. */
  ghost predicate SweepShrinks(before: map<SessionId, Tail>, after: map<SessionId, Tail>, session: SessionId) {
    && session in before && before[session].sweep.Some? && session in after && after[session].sweep.Some?
    && after[session].sweep.value.pending <= before[session].sweep.value.pending
    && after == before[session := before[session].(sweep :=
                  Some(Sweep(before[session].sweep.value.offset, after[session].sweep.value.pending)))]
  }

  ghost predicate OnlyCheckpointMoves(before: map<SessionId, Log>, after: map<SessionId, Log>, session: SessionId) {
    session in before && session in after &&
    after == before[session := before[session].(checkpoint := after[session].checkpoint)]
  }

  /** The session's dirty resident chunks in cache order. */
  function DirtyKeys(order: seq<Key>, active: map<Key, Active>, session: SessionId): seq<Key> {
    if |order| == 0 then []
    else
      var rest := DirtyKeys(order[..|order| - 1], active, session);
      var k := order[|order| - 1];
      if k.session == session && k in active && active[k].pending > 0 then rest + [k] else rest
  }

  lemma {:induction false} DirtyKeysAre(order: seq<Key>, active: map<Key, Active>, session: SessionId)
    ensures forall k :: k in DirtyKeys(order, active, session) <==>
              k in order && k.session == session && k in active && active[k].pending > 0
    decreases |order|
  {
    if |order| > 0 {
      DirtyKeysAre(order[..|order| - 1], active, session);
      assert order == order[..|order| - 1] + [order[|order| - 1]];
    }
  }
}
