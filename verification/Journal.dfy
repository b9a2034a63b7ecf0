/** One session's log and chunks behind the store, and what a process that dies leaves of them. */
module Journals {
  import opened Voxels
  import opened Poses
  import opened LogHistory
  import opened StoreMachine
  import opened ChunkLife
  import opened StoreSafety
  import opened Recovery
  import opened WriteBack
  import opened ChunkStores

  // ---------------------------------------------------------------- dying while a batch is stored

  /** The disk after some of the steps that store a batch and then a crash of any kind. */
  ghost predicate LeftBy(g: Setting, s: State, session: SessionId, b: Batch, run: seq<Step>, crash: Step, disk: Disk) {
    && Stores(session, b, run) && Exec(g, s, run).Some? && IsCrash(crash) && Legal(g, Exec(g, s, run).value, crash)
    && disk == Apply(g, Exec(g, s, run).value, crash).disk
  }

  ghost predicate LeftBehind(g: Setting, s: State, session: SessionId, b: Batch, disk: Disk) {
    exists run, crash :: LeftBy(g, s, session, b, run, crash, disk)
  }

  /** Dying after any number of the steps the store takes for the batch is such a case. */
  lemma PrefixLeavesBehind(g: Setting, s: State, session: SessionId, b: Batch, run: seq<Step>, n: nat, crash: Step)
    requires Stores(session, b, run) && n <= |run| && Exec(g, s, run).Some? && IsCrash(crash)
    ensures Exec(g, s, run[..n]).Some?
    ensures var u := Exec(g, s, run[..n]).value;
            Legal(g, u, crash) ==> LeftBehind(g, s, session, b, Apply(g, u, crash).disk)
  {
    ExecPrefix(g, s, run, n);
    var u := Exec(g, s, run[..n]).value;
    assert Stores(session, b, run[..n]);
    if Legal(g, u, crash) { assert LeftBy(g, s, session, b, run[..n], crash, Apply(g, u, crash).disk); }
  }

  /**
   * Where a death in the middle of storing a batch falls: a function from the store's state and the
   * batch to the disk it leaves. Any disk some of the store's steps and a crash can leave will do.
   */
  type Death = Option<(State, Batch) -> Disk>

  ghost predicate Possible(g: Setting, session: SessionId, death: Death) {
    death.Some? ==> forall s: State, b: Batch ::
      Legal(g, s, Step.Append(session, b)) ==> LeftBehind(g, s, session, b, death.value(s, b))
  }

  /** For one, the process may die before the store has done anything. */
  lemma DyingAtOnceIsPossible(g: Setting, session: SessionId)
    ensures Possible(g, session, Some((s: State, _: Batch) => s.disk))
  {
    forall s: State, b: Batch ensures LeftBehind(g, s, session, b, s.disk) {
      assert LeftBy(g, s, session, b, [], Step.Crash, s.disk);
    }
  }

  /** The logs as they were, the session's with or without the batch; torn tails aside. */
  ghost predicate LogsWith(before: map<SessionId, Log>, after: map<SessionId, Log>, session: SessionId, b: Batch) {
    && before.Keys == after.Keys
    && forall s :: s in before ==>
         && after[s].checkpoint == before[s].checkpoint
         && (after[s].records == before[s].records || (s == session && after[s].records == before[s].records + [b]))
  }

  lemma {:induction false} StoringKeepsLogs(g: Setting, s: State, session: SessionId, b: Batch, run: seq<Step>)
    requires Stores(session, b, run) && Exec(g, s, run).Some?
    ensures LogsWith(s.disk.logs, Exec(g, s, run).value.disk.logs, session, b)
    decreases |run|
  {
    if |run| > 0 {
      var u, step := Exec(g, s, run[..|run| - 1]).value, run[|run| - 1];
      StoringKeepsLogs(g, s, session, b, run[..|run| - 1]);
      hide FuseMem, Exec;
      if session in s.disk.logs {
        var before := s.disk.logs[session].records;
        assert Position(before + [b], |before| + 1) == b.sequence;
      }
    }
  }

  lemma CrashKeepsLogs(g: Setting, s: State, crash: Step)
    requires Legal(g, s, crash) && IsCrash(crash)
    ensures var logs := Apply(g, s, crash).disk.logs;
            && logs.Keys == s.disk.logs.Keys
            && forall k :: k in logs ==>
                 logs[k].records == s.disk.logs[k].records && logs[k].checkpoint == s.disk.logs[k].checkpoint
    ensures Apply(g, s, crash) == State(Apply(g, s, crash).disk, Restart(Apply(g, s, crash).disk))
  {
    hide Restart, Save;
  }

  lemma IndexStillServes(g: Setting, before: Disk, after: Disk, index: map<SessionId, seq<IndexRow>>,
                         session: SessionId, b: Batch)
    requires ChunkStore.Recoverable(g, before, index) && LogsWith(before.logs, after.logs, session, b)
    requires Inv(g, State(after, Restart(after)))
    ensures ChunkStore.Recoverable(g, after, index)
  {
    hide Inv, Restart, Spanned;
  }

  /** What is left can be opened on again, and its log has the batch or does not. */
  lemma LeftIsRecoverable(g: Setting, s: State, index: map<SessionId, seq<IndexRow>>, session: SessionId, b: Batch,
                          disk: Disk)
    requires Stable(g.voxelOf) && Inv(g, s) && ChunkStore.Recoverable(g, s.disk, index)
    requires LeftBehind(g, s, session, b, disk)
    ensures ChunkStore.Recoverable(g, disk, index) && LogsWith(s.disk.logs, disk.logs, session, b)
  {
    hide Inv, Exec, Apply, Legal, Restart, ChunkStore.Recoverable, Stores;
    var run, crash :| LeftBy(g, s, session, b, run, crash, disk);
    var u := Exec(g, s, run).value;
    StoringKeepsLogs(g, s, session, b, run);
    CrashKeepsLogs(g, u, crash);
    RunKeepsInv(g, s, run);
    StepKeepsInv(g, u, crash);
    IndexStillServes(g, s.disk, disk, index, session, b);
  }

  // ---------------------------------------------------------------- one session's journal

  /** Every session of the store is indexed as far as it is fused. */
  ghost predicate AllIndexed(store: ChunkStore) reads store {
    forall s :: s in store.disk.logs ==> s in store.tails && store.Indexed(s, store.tails[s].fused)
  }

  /** The payload does not spread over more chunks than a batch may. */
  predicate Narrow(g: Setting, maxChunksPerBatch: nat, maxDirtyChunks: nat, pose: Pose, points: seq<Point>) {
    |Spanned(g, pose, points)| <= Least(maxChunksPerBatch, maxDirtyChunks)
  }

  class Journal {
    const id: SessionId
    var store: ChunkStore
    var left: Option<Disk>  // what a process that died while storing a batch left; otherwise the store's disk is

    function OnDisk(): Disk reads this, store {
      if left.Some? then left.value else store.disk
    }

    ghost function Records(): seq<Batch>
      reads this, store
      requires id in OnDisk().logs
    {
      OnDisk().logs[id].records
    }

    /** Holds at every moment: the store can be opened on what is on disk. */
    ghost predicate Safe() reads this, store {
      && Stable(store.setting.voxelOf) && id in OnDisk().logs
      && ChunkStore.Recoverable(store.setting, OnDisk(), store.index)
    }

    /** Holds while the store is up: it has everything in its cache. */
    ghost predicate Up() reads this, store {
      && Safe() && left.None?
      && store.Valid() && Inv(store.setting, store.Current()) && AllIndexed(store)
      && CaughtUp(store.Current(), id) && !store.disk.logs[id].torn
    }

    constructor (id: SessionId, store: ChunkStore)
      requires store.Valid() && Inv(store.setting, store.Current()) && Stable(store.setting.voxelOf)
      requires AllIndexed(store)
      requires CaughtUp(store.Current(), id) && !store.disk.logs[id].torn
      ensures Up() && this.id == id && this.store == store && Records() == store.disk.logs[id].records
    {
      this.id, this.store, left := id, store, None;
      new;
      store.DyingIsRecoverable();
    }

    predicate Fits(pose: Pose, points: seq<Point>) reads this`store, store {
      Narrow(store.setting, store.maxChunksPerBatch, store.maxDirtyChunks, pose, points)
    }

    /** Log a batch and fuse it, unless it spreads too far. */
    method Append(b: Batch) returns (stored: bool)
      requires Up() && b.sequence > Position(Records(), |Records()|)
      modifies store
      ensures Up() && store.setting == old(store.setting)
      ensures stored <==> old(Fits(b.pose, b.points))
      ensures OnDisk().logs[id] == if stored then old(OnDisk()).logs[id].(records := old(Records()) + [b])
                                   else old(OnDisk()).logs[id]
    {
      hide Leads, Inv, Spanned, ChunkStore.Recoverable;
      ghost var before, index, tails := store.Current(), store.index, store.tails;
      assert store.Indexed(id, store.tails[id].fused);
      var outcome;
      ghost var run;
      outcome, run := store.StoreAcceptedBatchDurably(id, b);
      stored := outcome.Fused?;
      LedInv(store.setting, before, run, store.Current());
      forall s | s in store.disk.logs
        ensures s in store.tails && store.Indexed(s, store.tails[s].fused)
      {
        assert s != id ==> s in before.disk.logs && store.disk.logs[s] == before.disk.logs[s];
      }
      store.DyingIsRecoverable();
    }

    lemma CanDie(b: Batch, death: (State, Batch) -> Disk)
      requires Up() && b.sequence > Position(Records(), |Records()|)
      requires forall s: State, c: Batch ::
                 Legal(store.setting, s, Step.Append(id, c)) ==> LeftBehind(store.setting, s, id, c, death(s, c))
      ensures LeftBehind(store.setting, store.Current(), id, b, death(store.Current(), b))
    {
      assert Legal(store.setting, store.Current(), Step.Append(id, b));
    }

    /** Die while storing a batch that fits, after any of its steps and leaving this disk. */
    method DieStoring(ghost b: Batch, disk: Disk) returns (stored: bool)
      requires Up() && LeftBehind(store.setting, store.Current(), id, b, disk)
      modifies this`left
      ensures Safe() && left.Some? && store.setting == old(store.setting)
      ensures OnDisk().logs[id].checkpoint == old(OnDisk()).logs[id].checkpoint
      ensures Records() == old(Records()) + if stored then [b] else []
    {
      hide Inv, ChunkStore.Recoverable, LeftBehind;
      LeftIsRecoverable(store.setting, store.Current(), store.index, id, b, disk);
      stored := |disk.logs[id].records| > |store.disk.logs[id].records|;
      left := Some(disk);
      assert old(Records()) + [] == old(Records());
    }

    /** Write at most `maxChunks` dirty chunks and move the session's replay start when none is left. */
    method Checkpoint(maxChunks: Option<nat>)
      requires Up()
      modifies store
      ensures Up() && store.setting == old(store.setting) && Records() == old(Records())
      ensures OnDisk().logs[id].checkpoint <= |Records()|
    {
      hide Leads, Inv, ChunkStore.Recoverable, AllKeep, Writes;
      ghost var before := store.Current();
      var done;
      ghost var run;
      done, run := store.CheckpointSession(id, maxChunks);
      LedInv(store.setting, before, run, store.Current());
      forall s | s in store.disk.logs
        ensures s in store.tails && store.Indexed(s, store.tails[s].fused)
      {
        assert s in before.disk.logs && store.disk.logs[s].records == before.disk.logs[s].records;
      }
      store.DyingIsRecoverable();
    }

    /** Open the store on what is on disk; the replayed log is checkpointed to the end. */
    method Reopen()
      requires Safe()
      modifies this`store, this`left
      ensures Up() && fresh(store) && store.setting == old(store.setting) && Records() == old(Records())
      ensures store.maxDirtyChunks == old(store.maxDirtyChunks)
      ensures store.maxChunksPerBatch == old(store.maxChunksPerBatch)
      ensures OnDisk().logs[id].checkpoint == |Records()|
    {
      hide ChunkStore.Recoverable, Inv, Leads, Stable;
      var disk := OnDisk();
      store := new ChunkStore(store.setting, disk, store.index, store.flushPointThreshold, store.maxDirtyChunks,
                              store.maxChunksPerBatch);
      left := None;
      assert AllIndexed(store);
      store.DyingIsRecoverable();
    }

    /** While the store is up, every chunk holds every logged batch once. */
    lemma HoldsRecords()
      requires Up()
      ensures Restored(store.setting, store.Current(), id, Records())
    {
      forall k: Key | k.session == id
        ensures Hosted(store.Current(), k)
        ensures Strip(Resident(store.setting, ChunkAt(store.Current(), k)).vox)
                == Strip(FoldAll(store.setting, k, Records()).vox)
      {
        assert Hosted(store.Current(), k);
        CaughtUpChunk(store.setting, k, ChunkAt(store.Current(), k));
      }
    }
  }
}
