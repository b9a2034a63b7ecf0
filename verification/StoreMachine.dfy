/**
 * The chunk store as a state machine. Disk and memory are kept apart; each step is one point
 * between which the process can die. A crash step erases memory and nothing else.
 */
module StoreMachine {
  import opened Voxels
  import opened Poses
  import opened LogHistory

  // ---------------------------------------------------------------- state

  /** A chunk's accumulator sidecar and the last batch sequence fused into it. */
  datatype AccFile = AccFile(records: seq<Acc>, applied: nat)

  /** The observation counters in a chunk's metadata row. */
  datatype Row = Row(opportunities: nat, fov: nat)

  /**
   * A session's batch log: its intact records, whether a torn record follows them, and the
   * replay start kept in the session row (both offsets counted in records).
   */
  datatype Log = Log(records: seq<Batch>, torn: bool, checkpoint: nat)

  datatype Disk = Disk(logs: map<SessionId, Log>, acc: map<Key, AccFile>, bins: set<Key>, rows: map<Key, Row>)

  /** A resident chunk; `pending` counts points since it was last written. */
  datatype Active = Active(vox: VoxelMap, pending: nat, applied: nat)

  /** A registered cell's counters; `fov` is the last batch sequence counted. */
  datatype Stats = Stats(opportunities: nat, fov: nat, dirty: bool)

  datatype Sweep = Sweep(offset: nat, pending: seq<Key>)

  /** How many of a session's logged records are in the cache, and its checkpoint sweep. */
  datatype Tail = Tail(fused: nat, sweep: Option<Sweep>)

  datatype Mem = Mem(active: map<Key, Active>, cells: map<Key, Stats>, tails: map<SessionId, Tail>)

  datatype State = State(disk: Disk, mem: Mem)

  // ---------------------------------------------------------------- fusing a batch

  /** Chunks a batch may be fused into: all of them, or only those being rebuilt. */
  predicate Allowed(restrict: Option<set<Cell>>, chunk: Cell) {
    restrict.None? || chunk in restrict.value
  }

  /** A chunk brought into memory: seeded from its sidecar when there is one. */
  function FromFile(g: Setting, file: Option<AccFile>): Active {
    match file
    case None => Active(EMPTY, 0, 0)
    case Some(f) =>
      match Load(g.voxelOf, f.records)
      case Some(vm) => Active(vm, 0, f.applied)
      case None => Active(EMPTY, 0, 0)
  }

  function Find<V>(m: map<Key, V>, k: Key): Option<V> {
    if k in m then Some(m[k]) else None
  }

  function Activate(g: Setting, disk: Disk, k: Key): Active {
    FromFile(g, Find(disk.acc, k))
  }

  function Count(st: Stats, sequence: nat): Stats {
    if st.fov < sequence then Stats(st.opportunities + 1, sequence, true) else st
  }

  /** Every registered cell of the session that the pose can see gets an opportunity, once per sequence. */
  function CountView(g: Setting, session: SessionId, sequence: nat, pose: Pose,
                     restrict: Option<set<Cell>>, cells: map<Key, Stats>): map<Key, Stats>
  {
    map k | k in cells ::
      if k.session == session && Allowed(restrict, k.chunk) && g.inView(session, pose, k.chunk)
      then Count(cells[k], sequence) else cells[k]
  }

  /** A resident chunk, or the one that would be activated. */
  function ActiveAt(g: Setting, disk: Disk, mem: Mem, k: Key): Active {
    if k in mem.active then mem.active[k] else Activate(g, disk, k)
  }

  function StatsAt(mem: Mem, k: Key): Stats {
    if k in mem.cells then mem.cells[k] else Stats(0, 0, true)
  }

  /** One world point: activate and count its chunk, then add it unless the chunk already holds the batch. */
  function LandOne(g: Setting, disk: Disk, session: SessionId, sequence: nat,
                   restrict: Option<set<Cell>>, mem: Mem, w: Point): Mem
  {
    var k := Key(session, g.chunkOf(w.at));
    if !Allowed(restrict, k.chunk) then mem
    else
      var a := ActiveAt(g, disk, mem, k);
      var st := Count(StatsAt(mem, k), sequence);
      var a' := if a.applied >= sequence then a
                else Active(AddPoint(g.voxelOf, a.vox, w, st.opportunities), a.pending + 1, a.applied);
      mem.(active := mem.active[k := a'], cells := mem.cells[k := st])
  }

  function Land(g: Setting, disk: Disk, session: SessionId, sequence: nat, pose: Pose,
                restrict: Option<set<Cell>>, mem: Mem, points: seq<Point>): Mem
  {
    if |points| == 0 then mem
    else
      LandOne(g, disk, session, sequence, restrict,
              Land(g, disk, session, sequence, pose, restrict, mem, points[..|points| - 1]),
              Place(g, pose, points[|points| - 1]))
  }

  /** The chunks a payload's points fall in. */
  function Spanned(g: Setting, pose: Pose, points: seq<Point>): set<Cell> {
    if |points| == 0 then {}
    else Spanned(g, pose, points[..|points| - 1]) + {g.chunkOf(Place(g, pose, points[|points| - 1]).at)}
  }

  /** The chunks that accept a batch: spanned, allowed, and not already holding its sequence. */
  function Accepting(g: Setting, disk: Disk, mem: Mem, session: SessionId, sequence: nat, pose: Pose,
                     restrict: Option<set<Cell>>, points: seq<Point>): set<Key>
  {
    set c | c in Spanned(g, pose, points) && Allowed(restrict, c)
            && ActiveAt(g, disk, mem, Key(session, c)).applied < sequence :: Key(session, c)
  }

  /** Record that the accepting chunks now hold the batch. */
  function Mark(mem: Mem, accepting: set<Key>, sequence: nat): Mem {
    mem.(active := map k | k in mem.active ::
           if k in accepting then mem.active[k].(applied := sequence) else mem.active[k])
  }

  /** The memory effect of fusing a batch. */
  function FuseMem(g: Setting, disk: Disk, mem: Mem, session: SessionId, b: Batch, restrict: Option<set<Cell>>): Mem {
    var pose := PoseOf(g, session, b);
    var counted := mem.(cells := CountView(g, session, b.sequence, pose, restrict, mem.cells));
    Mark(Land(g, disk, session, b.sequence, pose, restrict, counted, b.points),
         Accepting(g, disk, mem, session, b.sequence, pose, restrict, b.points), b.sequence)
  }

  // ---------------------------------------------------------------- steps

  datatype Step =
    | Open(session: SessionId)
    | Append(session: SessionId, batch: Batch)
    | Fuse(session: SessionId)
    | Persist(key: Key)
    | Release(key: Key)
    | FlushCell(key: Key)
    | BeginSweep(session: SessionId, dirty: seq<Key>)
    | Pop(session: SessionId)
    | EndSweep(session: SessionId)
    | Truncate(session: SessionId)
    | Crash
    | TearAppend(session: SessionId)
    | CrashInPersist(key: Key, wroteBin: bool)

  /** Memory after a restart: counters from the rows, replay from each checkpoint. */
  function Restart(disk: Disk): Mem {
    Mem(map[],
        map k | k in disk.rows :: Stats(disk.rows[k].opportunities, disk.rows[k].fov, false),
        map s | s in disk.logs :: Tail(disk.logs[s].checkpoint, None))
  }

  predicate DirtyResident(mem: Mem, k: Key) {
    k in mem.active && mem.active[k].pending > 0
  }

  /** Every record of the session is in the cache and no torn bytes follow the log. */
  predicate CaughtUp(s: State, session: SessionId) {
    && session in s.disk.logs && session in s.mem.tails
    && s.mem.tails[session].fused == |s.disk.logs[session].records|
  }

  /** Cells with unsaved counters are either dirty residents or were never written. */
  ghost predicate StatsFlushed(s: State, session: SessionId) {
    forall k :: k in s.mem.cells && k.session == session && s.mem.cells[k].dirty ==>
      DirtyResident(s.mem, k) || k !in s.disk.rows
  }

  ghost predicate Legal(g: Setting, s: State, step: Step) {
    match step
    case Open(session) => session !in s.disk.logs
    case Append(session, b) =>
      && CaughtUp(s, session) && !s.disk.logs[session].torn
      && b.sequence > Position(s.disk.logs[session].records, |s.disk.logs[session].records|)
    case Fuse(session) =>
      && session in s.disk.logs && session in s.mem.tails
      && s.mem.tails[session].fused < |s.disk.logs[session].records|
    case Persist(k) => k in s.mem.active && k in s.mem.cells
    case Release(k) =>
      && k in s.mem.active && s.mem.active[k].pending == 0
      && (k in s.disk.bins || |s.mem.active[k].vox.keys| == 0)
    case FlushCell(k) => k in s.mem.cells && !DirtyResident(s.mem, k) && k in s.disk.rows
    case BeginSweep(session, dirty) =>
      && CaughtUp(s, session) && s.mem.tails[session].sweep.None?
      && (forall k :: k in dirty <==> DirtyResident(s.mem, k) && k.session == session)
      && StatsFlushed(s, session)
    case Pop(session) =>
      && session in s.mem.tails && s.mem.tails[session].sweep.Some?
      && var pending := s.mem.tails[session].sweep.value.pending;
      && |pending| > 0 && !DirtyResident(s.mem, pending[|pending| - 1])
    case EndSweep(session) =>
      && session in s.mem.tails && s.mem.tails[session].sweep.Some?
      && s.mem.tails[session].sweep.value.pending == [] && session in s.disk.logs
    case Truncate(session) => CaughtUp(s, session)
    case Crash => true
    case TearAppend(session) => CaughtUp(s, session) && !s.disk.logs[session].torn
    case CrashInPersist(k, _) => k in s.mem.active && |s.mem.active[k].vox.keys| > 0
  }

  function WithTail(mem: Mem, session: SessionId, tail: Tail): Mem {
    mem.(tails := mem.tails[session := tail])
  }

  /** The sidecar write of a persist. */
  function WriteAcc(disk: Disk, k: Key, a: Active): Disk {
    disk.(acc := disk.acc[k := AccFile(Save(a.vox), a.applied)])
  }

  ghost function Apply(g: Setting, s: State, step: Step): State
    requires Legal(g, s, step)
  {
    var State(disk, mem) := s;
    match step
    case Open(session) =>
      State(disk.(logs := disk.logs[session := Log([], false, 0)]), WithTail(mem, session, Tail(0, None)))
    case Append(session, b) =>
      var log := disk.logs[session];
      s.(disk := disk.(logs := disk.logs[session := log.(records := log.records + [b])]))
    case Fuse(session) =>
      var tail := mem.tails[session];
      var b := disk.logs[session].records[tail.fused];
      s.(mem := WithTail(FuseMem(g, disk, mem, session, b, None), session, tail.(fused := tail.fused + 1)))
    case Persist(k) =>
      var a := mem.active[k];
      var mem' := mem.(active := mem.active[k := a.(pending := 0)]);
      if |a.vox.keys| == 0 then s.(mem := mem')
      else
        var st := mem.cells[k];
        State(WriteAcc(disk, k, a).(bins := disk.bins + {k}, rows := disk.rows[k := Row(st.opportunities, st.fov)]),
              mem'.(cells := mem.cells[k := st.(dirty := false)]))
    case Release(k) => s.(mem := mem.(active := mem.active - {k}))
    case FlushCell(k) =>
      var st := mem.cells[k];
      State(disk.(rows := disk.rows[k := Row(st.opportunities, st.fov)]),
            mem.(cells := mem.cells[k := st.(dirty := false)]))
    case BeginSweep(session, dirty) =>
      var tail := mem.tails[session];
      s.(mem := WithTail(mem, session, tail.(sweep := Some(Sweep(|disk.logs[session].records|, dirty)))))
    case Pop(session) =>
      var tail := mem.tails[session];
      var sweep := tail.sweep.value;
      s.(mem := WithTail(mem, session, tail.(sweep := Some(sweep.(pending := sweep.pending[..|sweep.pending| - 1])))))
    case EndSweep(session) =>
      var tail := mem.tails[session];
      var log := disk.logs[session];
      State(disk.(logs := disk.logs[session := log.(checkpoint := tail.sweep.value.offset)]),
            WithTail(mem, session, tail.(sweep := None)))
    case Truncate(session) =>
      s.(disk := disk.(logs := disk.logs[session := disk.logs[session].(torn := false)]))
    case Crash => State(disk, Restart(disk))
    case TearAppend(session) =>
      var disk' := disk.(logs := disk.logs[session := disk.logs[session].(torn := true)]);
      State(disk', Restart(disk'))
    case CrashInPersist(k, wroteBin) =>
      var wrote := WriteAcc(disk, k, mem.active[k]);
      var disk' := if wroteBin then wrote.(bins := disk.bins + {k}) else wrote;
      State(disk', Restart(disk'))
  }

  const START := State(Disk(map[], map[], {}, map[]), Mem(map[], map[], map[]))

  /** The state after a run, when every step of it is legal. */
  ghost function Exec(g: Setting, s: State, run: seq<Step>): Option<State> {
    if |run| == 0 then Some(s)
    else
      match Exec(g, s, run[..|run| - 1])
      case None => None
      case Some(t) =>
        if Legal(g, t, run[|run| - 1]) then Some(Apply(g, t, run[|run| - 1])) else None
  }

  lemma {:induction false} ExecConcat(g: Setting, s: State, a: seq<Step>, t: State, b: seq<Step>)
    requires Exec(g, s, a) == Some(t)
    ensures Exec(g, s, a + b) == Exec(g, t, b)
    decreases |b|
  {
    if |b| == 0 {
      assert a + b == a;
    } else {
      ExecConcat(g, s, a, t, b[..|b| - 1]);
      assert (a + b)[..|a + b| - 1] == a + b[..|b| - 1];
    }
  }

  predicate IsCrash(step: Step) {
    step.Crash? || step.TearAppend? || step.CrashInPersist?
  }

  /** One state leads to another by a run in which the process does not die. */
  ghost predicate Leads(g: Setting, s: State, run: seq<Step>, t: State) {
    Exec(g, s, run) == Some(t) && forall i :: 0 <= i < |run| ==> !IsCrash(run[i])
  }

  lemma LeadsOn(g: Setting, s: State, a: seq<Step>, t: State, b: seq<Step>, u: State)
    requires Leads(g, s, a, t) && Leads(g, t, b, u)
    ensures Leads(g, s, a + b, u)
  {
    ExecConcat(g, s, a, t, b);
  }

  lemma ExecOne(g: Setting, s: State, step: Step)
    requires Legal(g, s, step)
    ensures Exec(g, s, [step]) == Some(Apply(g, s, step))
    ensures !IsCrash(step) ==> Leads(g, s, [step], Apply(g, s, step))
  {
    assert [step][..0] == [];
    assert Exec(g, s, []) == Some(s);
  }

  lemma ReleaseLeads(g: Setting, s: State, k: Key)
    requires Legal(g, s, Release(k))
    ensures Leads(g, s, [Release(k)], s.(mem := s.mem.(active := s.mem.active - {k})))
  {
    ExecOne(g, s, Release(k));
  }

  lemma PopLeads(g: Setting, s: State, session: SessionId)
    requires Legal(g, s, Pop(session))
    ensures var tail := s.mem.tails[session];
            var shorter := tail.sweep.value.(pending := tail.sweep.value.pending[..|tail.sweep.value.pending| - 1]);
            Leads(g, s, [Pop(session)], s.(mem := WithTail(s.mem, session, tail.(sweep := Some(shorter)))))
  {
    ExecOne(g, s, Pop(session));
  }

  lemma LeadsNowhere(g: Setting, s: State)
    ensures Leads(g, s, [], s)
  {
  }

  // ---------------------------------------------------------------- what fusing does to one chunk

  ghost predicate SameChunk(m: Mem, m': Mem, k: Key) {
    && (k in m.active <==> k in m'.active) && (k in m.active ==> m.active[k] == m'.active[k])
    && (k in m.cells <==> k in m'.cells) && (k in m.cells ==> m.cells[k] == m'.cells[k])
  }

  lemma {:induction false} SpannedIsLanded(g: Setting, pose: Pose, points: seq<Point>, c: Cell)
    ensures c in Spanned(g, pose, points) <==> Landed(g, pose, points, c) != []
    decreases |points|
  {
    if |points| > 0 {
      SpannedIsLanded(g, pose, points[..|points| - 1], c);
    }
  }

  /** What chunk `k` looks like in `m` once its points `pts` have landed on `mem`. */
  ghost predicate LandedChunk(g: Setting, disk: Disk, session: SessionId, sequence: nat,
                              restrict: Option<set<Cell>>, mem: Mem, m: Mem, pts: seq<Point>, k: Key)
  {
    if k.session != session || !Allowed(restrict, k.chunk) || pts == [] then SameChunk(mem, m, k)
    else
      var a, st := ActiveAt(g, disk, mem, k), Count(StatsAt(mem, k), sequence);
      && k in m.active && k in m.cells && m.cells[k] == st
      && m.active[k] == if a.applied >= sequence then a
                        else Active(AddPoints(g.voxelOf, a.vox, pts, st.opportunities), a.pending + |pts|, a.applied)
  }

  lemma LandOneHere(g: Setting, disk: Disk, session: SessionId, sequence: nat, restrict: Option<set<Cell>>,
                    mem: Mem, m: Mem, pts: seq<Point>, w: Point)
    requires var k := Key(session, g.chunkOf(w.at));
             Allowed(restrict, k.chunk) && LandedChunk(g, disk, session, sequence, restrict, mem, m, pts, k)
    ensures var k := Key(session, g.chunkOf(w.at));
            LandedChunk(g, disk, session, sequence, restrict, mem, LandOne(g, disk, session, sequence, restrict, m, w),
                        pts + [w], k)
  {
    var k := Key(session, g.chunkOf(w.at));
    var a, st := ActiveAt(g, disk, mem, k), Count(StatsAt(mem, k), sequence);
    assert (pts + [w])[..|pts|] == pts;
    if pts == [] {
      assert AddPoints(g.voxelOf, a.vox, pts, st.opportunities) == a.vox;
    }
    assert AddPoints(g.voxelOf, a.vox, pts + [w], st.opportunities)
        == AddPoint(g.voxelOf, AddPoints(g.voxelOf, a.vox, pts, st.opportunities), w, st.opportunities);
    assert Count(StatsAt(m, k), sequence) == st;
  }

  /** Interleaving the points of many chunks is the same as adding each chunk's own points in order. */
  lemma {:induction false} LandPerChunk(g: Setting, disk: Disk, session: SessionId, sequence: nat, pose: Pose,
                                        restrict: Option<set<Cell>>, mem: Mem, points: seq<Point>, k: Key)
    ensures Land(g, disk, session, sequence, pose, restrict, mem, points).tails == mem.tails
    ensures LandedChunk(g, disk, session, sequence, restrict, mem,
                        Land(g, disk, session, sequence, pose, restrict, mem, points), Landed(g, pose, points, k.chunk),
                            k)
    decreases |points|
  {
    if |points| > 0 {
      var init := points[..|points| - 1];
      LandPerChunk(g, disk, session, sequence, pose, restrict, mem, init, k);
      var m := Land(g, disk, session, sequence, pose, restrict, mem, init);
      var w := Place(g, pose, points[|points| - 1]);
      var rest := Landed(g, pose, init, k.chunk);
      if k == Key(session, g.chunkOf(w.at)) && Allowed(restrict, k.chunk) {
        LandOneHere(g, disk, session, sequence, restrict, mem, m, rest, w);
      } else {
        assert SameChunk(m, LandOne(g, disk, session, sequence, restrict, m, w), k);
        if k.session == session && Allowed(restrict, k.chunk) {
          assert Landed(g, pose, points, k.chunk) == rest;
        }
      }
    }
  }

  /** Landing points does not change which batch a chunk last held. */
  lemma LandKeepsApplied(g: Setting, disk: Disk, session: SessionId, sequence: nat, pose: Pose,
                         restrict: Option<set<Cell>>, mem: Mem, points: seq<Point>, k: Key)
    ensures ActiveAt(g, disk, Land(g, disk, session, sequence, pose, restrict, mem, points), k).applied
         == ActiveAt(g, disk, mem, k).applied
  {
    LandPerChunk(g, disk, session, sequence, pose, restrict, mem, points, k);
  }

  lemma AcceptingStep(g: Setting, disk: Disk, mem: Mem, session: SessionId, sequence: nat, pose: Pose,
                      restrict: Option<set<Cell>>, points: seq<Point>)
    requires |points| > 0
    ensures var key := Key(session, g.chunkOf(Place(g, pose, points[|points| - 1]).at));
            Accepting(g, disk, mem, session, sequence, pose, restrict, points)
            == Accepting(g, disk, mem, session, sequence, pose, restrict, points[..|points| - 1])
               + if Allowed(restrict, key.chunk) && ActiveAt(g, disk, mem, key).applied < sequence then {key} else {}
  {
  }

  /** Fusing neither reads nor changes the sessions' tails. */
  lemma FuseIgnoresTails(g: Setting, disk: Disk, mem: Mem, tails: map<SessionId, Tail>, session: SessionId, b: Batch,
                         restrict: Option<set<Cell>>)
    ensures FuseMem(g, disk, mem.(tails := tails), session, b, restrict)
         == FuseMem(g, disk, mem, session, b, restrict).(tails := tails)
  {
    var pose := PoseOf(g, session, b);
    var counted := mem.(cells := CountView(g, session, b.sequence, pose, restrict, mem.cells));
    LandIgnoresTails(g, disk, counted, tails, session, b.sequence, pose, restrict, b.points);
    assert forall k :: ActiveAt(g, disk, mem.(tails := tails), k) == ActiveAt(g, disk, mem, k);
  }

  lemma {:induction false} LandIgnoresTails(g: Setting, disk: Disk, mem: Mem, tails: map<SessionId, Tail>,
                                            session: SessionId,
                                            sequence: nat, pose: Pose, restrict: Option<set<Cell>>, points: seq<Point>)
    ensures Land(g, disk, session, sequence, pose, restrict, mem.(tails := tails), points)
         == Land(g, disk, session, sequence, pose, restrict, mem, points).(tails := tails)
    decreases |points|
  {
    if |points| > 0 {
      LandIgnoresTails(g, disk, mem, tails, session, sequence, pose, restrict, points[..|points| - 1]);
    }
  }

  /** The counters of a cell after fusing a batch. */
  function FusedStats(g: Setting, mem: Mem, session: SessionId, b: Batch, restrict: Option<set<Cell>>, k: Key): Stats {
    if Allowed(restrict, k.chunk) && (Touches(g, k, b) || (k in mem.cells && InView(g, k, b)))
    then Count(StatsAt(mem, k), b.sequence) else StatsAt(mem, k)
  }

  /** A resident chunk after fusing a batch that hits it or not. */
  function FusedActive(g: Setting, a: Active, st: Stats, b: Batch, hit: bool, k: Key): Active {
    if hit && a.applied < b.sequence then
      Active(AddPoints(g.voxelOf, a.vox, LandedIn(g, k, b), st.opportunities), a.pending + |LandedIn(g, k, b)|,
             b.sequence)
    else a
  }

  /** Fusing a batch, one chunk at a time. */
  lemma FusePerChunk(g: Setting, disk: Disk, mem: Mem, session: SessionId, b: Batch, restrict: Option<set<Cell>>,
                     k: Key)
    ensures var m := FuseMem(g, disk, mem, session, b, restrict);
            && m.tails == mem.tails
            && (k.session != session ==> SameChunk(mem, m, k))
            && (k.session == session ==>
                  var hit := Allowed(restrict, k.chunk) && Touches(g, k, b);
                  var a := ActiveAt(g, disk, mem, k);
                  var st := FusedStats(g, mem, session, b, restrict, k);
                  && (k in m.cells <==> k in mem.cells || hit)
                  && (k in m.cells ==> m.cells[k] == st)
                  && (k in m.active <==> k in mem.active || hit)
                  && (k in m.active ==> m.active[k] == FusedActive(g, a, st, b, hit, k)))
  {
    var pose := PoseOf(g, session, b);
    var counted := mem.(cells := CountView(g, session, b.sequence, pose, restrict, mem.cells));
    LandPerChunk(g, disk, session, b.sequence, pose, restrict, counted, b.points, k);
    SpannedIsLanded(g, pose, b.points, k.chunk);
    assert ActiveAt(g, disk, counted, k) == ActiveAt(g, disk, mem, k);
    var accepting := Accepting(g, disk, mem, session, b.sequence, pose, restrict, b.points);
    if k.session == session {
      assert k == Key(session, k.chunk);
      assert k in accepting <==> k.chunk in Spanned(g, pose, b.points) && Allowed(restrict, k.chunk)
                                 && ActiveAt(g, disk, mem, k).applied < b.sequence;
      assert Count(Count(StatsAt(mem, k), b.sequence), b.sequence) == Count(StatsAt(mem, k), b.sequence);
    } else {
      assert k !in accepting;
    }
  }
}
