/** The server's side of the base layer for one viewer: what was sent, and the messages in flight. */
module LodServers {
  import opened Voxels
  import opened Lod
  import opened DeltaProtocol

  /** What the server believes the viewer holds of a chunk. */
  datatype Held = Held(level: nat, version: nat, count: nat, keyframeVersion: nat)

  datatype Message =
    | ChunkLod(chunk: Cell, level: nat, version: nat, points: seq<Point>)
    | ChunkDelta(chunk: Cell, level: nat, version: nat, points: seq<Point>)
    | ChunkDrop(chunk: Cell)
    | SessionRebuilt

  function At<V>(m: map<Cell, V>, c: Cell): Option<V> {
    if c in m then Some(m[c]) else None
  }

  function Put<V>(m: map<Cell, V>, c: Cell, v: Option<V>): map<Cell, V> {
    if v.Some? then m[c := v.value] else m - {c}
  }

  function Max(a: nat, b: nat): nat {
    if a > b then a else b
  }

  // ---------------------------------------------------------------- one chunk

  /** The record and messages after one chunk was looked at. */
  datatype Sending = Sending(held: Option<Held>, messages: seq<Message>)

  function Dropped(held: Option<Held>, chunk: Cell): Sending {
    Sending(None, if held.Some? then [ChunkDrop(chunk)] else [])
  }

  /** Send a chunk in full; an empty derivation drops it instead. */
  function Keyframe(ladder: Ladder, f: Fine, filter: Option<Filter>, held: Option<Held>, chunk: Cell,
                    level: nat): Sending
    requires ladder.fuseVoxelMeters > 0.0 && Sound(f.vox)
  {
    var full := Derived(ladder, f, level, filter, 0);
    if full.points == [] then Dropped(held, chunk)
    else Sending(Some(Held(level, full.version, full.total, full.version)),
                 [ChunkLod(chunk, level, full.version, full.points)])
  }

  /** A changed chunk: drop, send in full, or send what was added since the viewer's version. */
  function Refreshed(ladder: Ladder, f: Fine, filter: Option<Filter>, held: Option<Held>, chunk: Cell,
                     level: Option<nat>): Sending
    requires ladder.fuseVoxelMeters > 0.0 && Sound(f.vox)
  {
    if level.None? then Dropped(held, chunk)
    else if held.None? || held.value.level != level.value then Keyframe(ladder, f, filter, held, chunk, level.value)
    else
      var h := held.value;
      var delta := Derived(ladder, f, level.value, filter, h.version);
      if delta.total != h.count + |delta.points| || delta.version >= 2 * Max(h.keyframeVersion, 1) then
        Keyframe(ladder, f, filter, held, chunk, level.value)
      else if delta.points == [] then Sending(Some(h.(version := delta.version)), [])
      else
        Sending(Some(h.(version := delta.version, count := delta.total)),
                [ChunkDelta(chunk, level.value, delta.version, delta.points)])
  }

  /** A camera move: send in full what is newly visible or changed level, drop what is gone. */
  function Looked(ladder: Ladder, f: Fine, filter: Option<Filter>, held: Option<Held>, chunk: Cell,
                  level: Option<nat>): Sending
    requires ladder.fuseVoxelMeters > 0.0 && Sound(f.vox)
  {
    if level.None? then Dropped(held, chunk)
    else if held.Some? && held.value.level == level.value then Sending(held, [])
    else Keyframe(ladder, f, filter, held, chunk, level.value)
  }

  // ---------------------------------------------------------------- what a viewer ends up with

  /** The points a viewer shows per chunk after one more message. */
  function Show(shown: map<Cell, seq<Point>>, m: Message): map<Cell, seq<Point>> {
    match m
    case ChunkLod(c, _, _, points) => shown[c := points]
    case ChunkDelta(c, _, _, points) => shown[c := (if c in shown then shown[c] else []) + points]
    case ChunkDrop(c) => shown - {c}
    case SessionRebuilt => map[]
  }

  function Delivered(shown: map<Cell, seq<Point>>, wire: seq<Message>): map<Cell, seq<Point>> {
    if |wire| == 0 then shown else Show(Delivered(shown, wire[..|wire| - 1]), wire[|wire| - 1])
  }

  lemma {:induction false} DeliveredJoin(shown: map<Cell, seq<Point>>, a: seq<Message>, b: seq<Message>)
    ensures Delivered(shown, a + b) == Delivered(Delivered(shown, a), b)
    decreases |b|
  {
    if |b| == 0 {
      assert a + b == a;
    } else {
      DeliveredJoin(shown, a, b[..|b| - 1]);
      assert (a + b)[..|a + b| - 1] == a + b[..|b| - 1];
    }
  }

  lemma DeliveredOne(shown: map<Cell, seq<Point>>, m: Message)
    ensures Delivered(shown, [m]) == Show(shown, m)
  {
    assert [m][..0] == [];
    assert Delivered(shown, []) == shown;
  }

  ghost predicate Servable(ladder: Ladder, f: Fine) {
    WellFormed(ladder) && WellKeyed(Grid(ladder.fuseVoxelMeters), f.vox)
  }

  /** A filter on hits alone; a voxel that passes it keeps passing. */
  predicate HitsOnly(filter: Option<Filter>) {
    filter.Some? && filter.value.minRatio == 0.0
  }

  /** The points lie in the cells of the chunk's full derivation, one in each. */
  ghost predicate ShowsCells(ladder: Ladder, f: Fine, filter: Option<Filter>, level: nat, points: seq<Point>)
    requires ladder.fuseVoxelMeters > 0.0 && Sound(f.vox)
  {
    var gridOf := Grid(LevelVoxelMeters(ladder, level));
    && Once(CellsOf(points, gridOf))
    && CellSet(CellsOf(points, gridOf)) == CellSet(CellsOf(Derived(ladder, f, level, filter, 0).points, gridOf))
  }

  /** A chunk as it was when it was last sent in full, and as it was when it was last refreshed. */
  datatype Stages = Stages(full: Fine, last: Fine)

  /**
   * The record of a chunk agrees with the points the viewer shows for it, of which there are some.
   * They begin with what the chunk was when last sent in full, and it has not doubled since.
   */
  ghost predicate Tracked(ladder: Ladder, f: Fine, asOf: Stages, filter: Option<Filter>, held: Held, points: seq<Point>)
    requires ladder.fuseVoxelMeters > 0.0
  {
    && Servable(ladder, asOf.last) && Sound(asOf.last.vox) && Grows(asOf.last, f)
    && |points| == held.count > 0 && held.version == |asOf.last.vox.keys|
    && SentInFull(ladder, asOf, filter, held, points)
    && (!Filtering(filter) ==>
          CellsOf(points, Grid(LevelVoxelMeters(ladder, held.level)))
          == Unfiltered(f.vox.keys, Doublings(ladder, held.level), held.version))
    && (HitsOnly(filter) ==> ShowsCells(ladder, asOf.last, filter, held.level, points))
  }

  /** The points begin with a keyframe of a stage the chunk has not doubled since. */
  ghost predicate SentInFull(ladder: Ladder, asOf: Stages, filter: Option<Filter>, held: Held, points: seq<Point>)
    requires ladder.fuseVoxelMeters > 0.0
  {
    && Sound(asOf.full.vox) && Grows(asOf.full, asOf.last) && held.keyframeVersion == |asOf.full.vox.keys|
    && 1 <= held.keyframeVersion <= held.version < 2 * held.keyframeVersion
    && Derived(ladder, asOf.full, held.level, filter, 0).points <= points
  }

  ghost predicate Tracks(ladder: Ladder, chunks: map<Cell, Fine>, asOf: map<Cell, Stages>, filter: Option<Filter>,
                         sent: map<Cell, Held>,
                         shown: map<Cell, seq<Point>>)
    requires ladder.fuseVoxelMeters > 0.0
  {
    && sent.Keys == shown.Keys == asOf.Keys && sent.Keys <= chunks.Keys
    && forall c :: c in sent ==> Tracked(ladder, chunks[c], asOf[c], filter, sent[c], shown[c])
  }

  /** The stages of a chunk after it was handled. */
  function NextStages(was: Option<Stages>, f: Fine, s: Sending): Option<Stages> {
    if s.held.None? then None
    else if was.None? || (|s.messages| > 0 && s.messages[0].ChunkLod?) then Some(Stages(f, f))
    else Some(Stages(was.value.full, f))
  }

  /**
   * What was sent turns the points the viewer has into those the new record stands for; messages
   * carry the record's level and version and are never empty. `full` is the stage last sent in full.
   */
  ghost predicate Faithful(ladder: Ladder, f: Fine, full: Fine, filter: Option<Filter>, held: Option<Held>,
                           points: seq<Point>, chunk: Cell, s: Sending)
    requires ladder.fuseVoxelMeters > 0.0
  {
    if s.held.None? then s == Dropped(held, chunk)
    else if s.messages == [] then held.Some? && Tracked(ladder, f, Stages(full, f), filter, s.held.value, points)
    else
      && |s.messages| == 1
      && match s.messages[0]
         case ChunkLod(c, l, v, ps) =>
           && c == chunk && l == s.held.value.level && v == s.held.value.version && ps != []
           && Tracked(ladder, f, Stages(f, f), filter, s.held.value, ps)
         case ChunkDelta(c, l, v, ps) =>
           && c == chunk && held.Some? && l == s.held.value.level && v == s.held.value.version && ps != []
           && Tracked(ladder, f, Stages(full, f), filter, s.held.value, points + ps)
         case _ => false
  }

  lemma KeyframeTracks(ladder: Ladder, f: Fine, full: Fine, filter: Option<Filter>, held: Option<Held>,
                       points: seq<Point>, chunk: Cell, level: nat)
    requires Servable(ladder, f) && Sound(f.vox)
    ensures Faithful(ladder, f, full, filter, held, points, chunk, Keyframe(ladder, f, filter, held, chunk, level))
  {
    if Derived(ladder, f, level, filter, 0).points != [] { KeyframeIsTracked(ladder, f, filter, level); }
    hide Derived, Tracked;
  }

  lemma KeyframeIsTracked(ladder: Ladder, f: Fine, filter: Option<Filter>, level: nat)
    requires Servable(ladder, f) && Sound(f.vox) && Derived(ladder, f, level, filter, 0).points != []
    ensures var sent := Derived(ladder, f, level, filter, 0);
            Tracked(ladder, f, Stages(f, f), filter, Held(level, sent.version, sent.total, sent.version), sent.points)
  {
    DerivedCells(ladder, f, level, filter, 0);
    LevelGrows(f.vox.keys, Flags(filter, f), Doublings(ladder, level), 0, |f.vox.keys|);
    if !Filtering(filter) { UnfilteredCells(ladder, f, level, filter, 0); }
    var sent := Derived(ladder, f, level, filter, 0);
    var gridOf := Grid(LevelVoxelMeters(ladder, level));
    assert Level(f.vox.keys, Flags(filter, f), Doublings(ladder, level), 0) == [];
    assert Unfiltered(f.vox.keys, Doublings(ladder, level), 0) == [];
    assert sent.points != [] ==> |f.vox.keys| > 0;
    hide Derived, Level, Unfiltered, WellKeyed;
    assert |CellsOf(sent.points, gridOf)| == |sent.points|;
  }

  /** For a filter on hits alone, a delta that passes the count test completes the cells. */
  lemma DeltaShowsCells(ladder: Ladder, f: Fine, asOf: Stages, filter: Option<Filter>, h: Held, points: seq<Point>)
    requires Servable(ladder, f) && Sound(f.vox) && Tracked(ladder, f, asOf, filter, h, points) && HitsOnly(filter)
    requires Derived(ladder, f, h.level, filter, h.version).total == h.count
             + |Derived(ladder, f, h.level, filter, h.version).points|
    ensures ShowsCells(ladder, f, filter, h.level, points + Derived(ladder, f, h.level, filter, h.version).points)
  {
    var delta, gridOf := Derived(ladder, f, h.level, filter, h.version), Grid(LevelVoxelMeters(ladder, h.level));
    var j, v, n := Doublings(ladder, h.level), |asOf.last.vox.keys|, |f.vox.keys|;
    var held := CellsOf(points, gridOf);
    hide Servable, Derived, Level, Flags, WellKeyed, Grows, SentInFull;
    DivergenceIsExact(ladder, asOf.last, f, h.level, filter, held);
    HeldIsInLevel(ladder, asOf.last, f, h.level, filter, held);
    DerivedCells(ladder, f, h.level, filter, v);
    LevelGrows(f.vox.keys, Flags(filter, f), j, v, n);
    CellsOfJoin(points, delta.points, gridOf);
    StillOnce(held, Level(f.vox.keys, Flags(filter, f), j, v), Level(f.vox.keys, Flags(filter, f), j, n));
    CellSetJoin(held, CellsOf(delta.points, gridOf));
  }

  /** Cells that passed before are among those that pass now. */
  lemma HeldIsInLevel(ladder: Ladder, f: Fine, f': Fine, level: nat, filter: Option<Filter>, held: seq<Cell>)
    requires WellFormed(ladder) && HitsOnly(filter) && Grows(f, f') && Sound(f.vox) && Sound(f'.vox)
    requires WellKeyed(Grid(ladder.fuseVoxelMeters), f.vox)
    requires CellSet(held)
             == CellSet(CellsOf(Derived(ladder, f, level, filter, 0).points, Grid(LevelVoxelMeters(ladder, level))))
    ensures forall c :: c in held ==> c in Level(f'.vox.keys, Flags(filter, f'), Doublings(ladder, level), |f.vox.keys|)
  {
    var j, v, flags := Doublings(ladder, level), |f.vox.keys|, Flags(filter, f);
    DerivedCells(ladder, f, level, filter, 0);
    assert Level(f.vox.keys, flags, j, 0) == [];
    forall i | 0 <= i < v ensures f.vox.keys[i] == f'.vox.keys[i] && (flags[i] ==> Flags(filter, f')[i]) {
      PassingStays(filter, f, f', i);
    }
    LevelMonotone(f.vox.keys, flags, f'.vox.keys, Flags(filter, f'), j, v);
    hide Derived, Level, Flags, WellKeyed;
    forall c | c in held ensures c in Level(f.vox.keys, flags, j, v) { assert c in CellSet(held); }
  }

  lemma StillOnce(held: seq<Cell>, before: seq<Cell>, now: seq<Cell>)
    requires Once(held) && Once(now) && before <= now && forall c :: c in held ==> c in before
    ensures Once(held + now[|before|..])
  {
    forall c | c in before ensures c !in now[|before|..] {
      var i :| 0 <= i < |before| && before[i] == c;
      assert now[i] == c;
    }
    forall i | 0 <= i < |held| ensures held[i] in before { assert held[i] in held; }
    forall i, k | 0 <= i < k < |held + now[|before|..]|
      ensures (held + now[|before|..])[i] != (held + now[|before|..])[k]
    {
      if i < |held| <= k { assert held[i] in before && now[|before|..][k - |held|] in now[|before|..]; }
    }
  }

  lemma CellSetJoin(a: seq<Cell>, b: seq<Cell>)
    ensures CellSet(a + b) == CellSet(a) + CellSet(b)
  {
  }

  /** A delta that passes the count test extends what the viewer holds to the chunk's current version. */
  lemma DeltaTracks(ladder: Ladder, f: Fine, asOf: Stages, filter: Option<Filter>, h: Held, points: seq<Point>)
    requires Servable(ladder, f) && Sound(f.vox) && Tracked(ladder, f, asOf, filter, h, points)
    requires |f.vox.keys| < 2 * h.keyframeVersion
    requires Derived(ladder, f, h.level, filter, h.version).total == h.count
             + |Derived(ladder, f, h.level, filter, h.version).points|
    ensures var delta := Derived(ladder, f, h.level, filter, h.version);
            Tracked(ladder, f, Stages(asOf.full, f), filter, h.(version := delta.version, count := delta.total),
                    points + delta.points)
  {
    hide Derived, Level, Flags, WellKeyed, ShowsCells, Grows;
    GrowsOn(asOf.full, asOf.last, f);
    GrowsOn(asOf.last, f, f);
    var delta := Derived(ladder, f, h.level, filter, h.version);
    DerivedCells(ladder, f, h.level, filter, h.version);
    if HitsOnly(filter) { DeltaShowsCells(ladder, f, asOf, filter, h, points); }
    if !Filtering(filter) {
      UnfilteredCells(ladder, f, h.level, filter, h.version);
      hide Unfiltered;
      CellsOfJoin(points, delta.points, Grid(LevelVoxelMeters(ladder, h.level)));
    }
  }

  lemma GrowsOn(a: Fine, b: Fine, c: Fine)
    ensures Grows(a, b) && Grows(b, c) ==> Grows(a, c)
    ensures Grows(c, c)
  {
  }

  lemma RefreshedTracks(ladder: Ladder, f: Fine, asOf: Stages, filter: Option<Filter>, held: Option<Held>,
                        points: seq<Point>, chunk: Cell,
                        level: Option<nat>)
    requires Servable(ladder, f) && Sound(f.vox)
    requires held.Some? ==> Tracked(ladder, f, asOf, filter, held.value, points)
    ensures Faithful(ladder, f, asOf.full, filter, held, points, chunk,
                     Refreshed(ladder, f, filter, held, chunk, level))
  {
    hide Keyframe, Tracked, Derived, Faithful;
    if level.Some? {
      KeyframeTracks(ladder, f, asOf.full, filter, held, points, chunk, level.value);
      if held.Some? && held.value.level == level.value {
        var h := held.value;
        var delta := Derived(ladder, f, h.level, filter, h.version);
        TrackedSays(ladder, f, asOf, filter, h, points);
        if delta.total == h.count + |delta.points| && delta.version < 2 * h.keyframeVersion {
          DeltaIsFaithful(ladder, f, asOf, filter, h, points, chunk);
        }
      }
    } else {
      DropIsFaithful(ladder, f, asOf.full, filter, held, points, chunk);
    }
  }

  lemma DropIsFaithful(ladder: Ladder, f: Fine, full: Fine, filter: Option<Filter>, held: Option<Held>,
                       points: seq<Point>, chunk: Cell)
    requires ladder.fuseVoxelMeters > 0.0
    ensures Faithful(ladder, f, full, filter, held, points, chunk, Dropped(held, chunk))
  {
  }

  lemma DeltaIsFaithful(ladder: Ladder, f: Fine, asOf: Stages, filter: Option<Filter>, h: Held, points: seq<Point>,
                        chunk: Cell)
    requires Servable(ladder, f) && Sound(f.vox) && Tracked(ladder, f, asOf, filter, h, points)
    requires Derived(ladder, f, h.level, filter, h.version).total == h.count
             + |Derived(ladder, f, h.level, filter, h.version).points|
    requires Derived(ladder, f, h.level, filter, h.version).version < 2 * h.keyframeVersion
    ensures Faithful(ladder, f, asOf.full, filter, Some(h), points, chunk,
                     Refreshed(ladder, f, filter, Some(h), chunk, Some(h.level)))
  {
    var delta := Derived(ladder, f, h.level, filter, h.version);
    DerivedCells(ladder, f, h.level, filter, h.version);
    DeltaTracks(ladder, f, asOf, filter, h, points);
    TrackedSays(ladder, f, asOf, filter, h, points);
    RefreshedAsDelta(ladder, f, filter, h, chunk);
    hide Refreshed, Derived, Tracked, Faithful, Servable, Sound;
    var next := h.(version := delta.version, count := delta.total);
    AddedIsFaithful(ladder, f, asOf.full, filter, h, points, chunk, next, delta.points);
  }

  lemma AddedIsFaithful(ladder: Ladder, f: Fine, full: Fine, filter: Option<Filter>, h: Held, points: seq<Point>,
                        chunk: Cell, next: Held, added: seq<Point>)
    requires ladder.fuseVoxelMeters > 0.0
    requires Tracked(ladder, f, Stages(full, f), filter, next, points + added)
    ensures Faithful(ladder, f, full, filter, Some(h), points, chunk,
                     Sending(Some(next),
                             if added == [] then [] else [ChunkDelta(chunk, next.level, next.version, added)]))
  {
    hide Tracked;
    if added == [] { assert points + added == points; }
  }

  /** With agreeing counts and no doubling, a refresh sends what was added, if anything. */
  lemma RefreshedAsDelta(ladder: Ladder, f: Fine, filter: Option<Filter>, h: Held, chunk: Cell)
    requires ladder.fuseVoxelMeters > 0.0 && Sound(f.vox)
    requires Derived(ladder, f, h.level, filter, h.version).total == h.count
             + |Derived(ladder, f, h.level, filter, h.version).points|
    requires Derived(ladder, f, h.level, filter, h.version).version < 2 * h.keyframeVersion
    ensures var delta := Derived(ladder, f, h.level, filter, h.version);
            Refreshed(ladder, f, filter, Some(h), chunk, Some(h.level))
            == Sending(Some(h.(version := delta.version, count := delta.total)),
                       if delta.points == [] then []
                       else [ChunkDelta(chunk, h.level, delta.version, delta.points)])
  {
    hide Derived;
  }

  lemma TrackedSays(ladder: Ladder, f: Fine, asOf: Stages, filter: Option<Filter>, h: Held, points: seq<Point>)
    requires ladder.fuseVoxelMeters > 0.0 && Tracked(ladder, f, asOf, filter, h, points)
    ensures h.keyframeVersion >= 1
  {
  }

  /** Handling one chunk keeps the record and the viewer's eventual content in step. */
  lemma SendingTracks(ladder: Ladder, chunks: map<Cell, Fine>, asOf: map<Cell, Stages>, filter: Option<Filter>,
                      sent: map<Cell, Held>,
                      shown: map<Cell, seq<Point>>, chunk: Cell, s: Sending)
    requires ladder.fuseVoxelMeters > 0.0 && Tracks(ladder, chunks, asOf, filter, sent, shown)
    requires s.held.Some? ==> chunk in chunks
    requires var points := if chunk in shown then shown[chunk] else [];
             if s.held.None? then s == Dropped(At(sent, chunk), chunk)
             else Faithful(ladder, chunks[chunk], if chunk in asOf then asOf[chunk].full else chunks[chunk], filter,
                           At(sent, chunk), points, chunk, s)
    ensures Tracks(ladder, chunks,
                   Put(asOf, chunk, if s.held.None? then None else NextStages(At(asOf, chunk), chunks[chunk], s)),
                   filter, Put(sent, chunk, s.held), Delivered(shown, s.messages))
  {
    hide Tracked, Delivered;
    if |s.messages| == 1 {
      assert s.messages == [s.messages[0]];
      DeliveredOne(shown, s.messages[0]);
    } else {
      assert s.messages == [];
      assert Delivered(shown, []) == shown by { DeliveredNone(shown); }
    }
  }

  lemma DeliveredNone(shown: map<Cell, seq<Point>>)
    ensures Delivered(shown, []) == shown
  {
  }

  lemma FaithfulDrop(ladder: Ladder, f: Fine, full: Fine, filter: Option<Filter>, held: Option<Held>,
                     points: seq<Point>, chunk: Cell, s: Sending)
    requires ladder.fuseVoxelMeters > 0.0 && Faithful(ladder, f, full, filter, held, points, chunk, s)
    ensures s.held.None? ==> s == Dropped(held, chunk)
  {
  }

  /** Growth and rebuilt-elsewhere chunks do not disturb what is held. */
  lemma GrowthTracks(ladder: Ladder, chunks: map<Cell, Fine>, chunks': map<Cell, Fine>, asOf: map<Cell, Stages>,
                     filter: Option<Filter>,
                     sent: map<Cell, Held>, shown: map<Cell, seq<Point>>)
    requires ladder.fuseVoxelMeters > 0.0 && Tracks(ladder, chunks, asOf, filter, sent, shown)
    requires forall c :: c in chunks ==> c in chunks' && Grows(chunks[c], chunks'[c])
    ensures Tracks(ladder, chunks', asOf, filter, sent, shown)
  {
    hide Tracked, Grows;
    forall c | c in sent
      ensures c in chunks' && Tracked(ladder, chunks'[c], asOf[c], filter, sent[c], shown[c])
    {
      assert Tracked(ladder, chunks[c], asOf[c], filter, sent[c], shown[c]);
      GrownTracked(ladder, chunks[c], chunks'[c], asOf[c], filter, sent[c], shown[c]);
    }
  }

  lemma GrownTracked(ladder: Ladder, f: Fine, f': Fine, asOf: Stages, filter: Option<Filter>, held: Held,
                     points: seq<Point>)
    requires ladder.fuseVoxelMeters > 0.0 && Tracked(ladder, f, asOf, filter, held, points) && Grows(f, f')
    ensures Tracked(ladder, f', asOf, filter, held, points)
  {
    hide ShowsCells, Unfiltered, Servable, Sound, SentInFull;
    UnfilteredGrows(f.vox.keys, f'.vox.keys, Doublings(ladder, held.level), held.version);
  }

  /** One more message, in full or a drop, about this chunk. */
  ghost predicate SaysOneMore(queue: seq<Message>, wire: seq<Message>, chunk: Cell) {
    |wire| == |queue| + 1 && queue <= wire && (wire[|queue|].ChunkLod? || wire[|queue|].ChunkDrop?)
    && wire[|queue|].chunk == chunk
  }

  /** Everything said since is a keyframe or a drop of a chunk whose record has changed. */
  ghost predicate AboutChanged(before: map<Cell, Held>, sent: map<Cell, Held>, queue: seq<Message>, wire: seq<Message>)
  {
    queue <= wire && forall i :: |queue| <= i < |wire| ==>
      (wire[i].ChunkLod? || wire[i].ChunkDrop?) && At(before, wire[i].chunk) != At(sent, wire[i].chunk)
  }

  /** Handling one more chunk whose record had not changed. */
  lemma AboutOneMore(before: map<Cell, Held>, was: map<Cell, Held>, sent: map<Cell, Held>, queue: seq<Message>,
                     sofar: seq<Message>, wire: seq<Message>, c: Cell)
    requires AboutChanged(before, was, queue, sofar) && At(was, c) == At(before, c)
    requires forall d :: d != c ==> At(sent, d) == At(was, d)
    requires if At(sent, c) == At(was, c) then wire == sofar else SaysOneMore(sofar, wire, c)
    ensures AboutChanged(before, sent, queue, wire)
  {
  }

  lemma LookedSays(ladder: Ladder, f: Fine, filter: Option<Filter>, held: Option<Held>, chunk: Cell,
                   level: Option<nat>)
    requires ladder.fuseVoxelMeters > 0.0 && Sound(f.vox)
    ensures var now := Looked(ladder, f, filter, held, chunk, level).held;
            && (now.Some? ==> level == Some(now.value.level))
            && (held.Some? && level == Some(held.value.level) ==> now == held)
  {
  }

  // ---------------------------------------------------------------- the server

  class LodServer {
    const ladder: Ladder
    const filter: Option<Filter>
    var chunks: map<Cell, Fine>   // the session's registered chunks
    var dirty: set<Cell>          // chunks changed since the last refresh
    var looked: bool              // whether the viewer has sent a view yet
    var sent: map<Cell, Held>
    ghost var asOf: map<Cell, Stages>  // each chunk sent, as it was when last sent in full and refreshed
    var wire: seq<Message>        // sent and not yet received, oldest first

    ghost predicate Valid() reads this {
      WellFormed(ladder) && forall c :: c in chunks ==> Servable(ladder, chunks[c]) && Sound(chunks[c].vox)
    }

    /** If every message in flight arrives, the viewer shows what `sent` says. */
    ghost predicate InStep(shown: map<Cell, seq<Point>>) reads this
      requires ladder.fuseVoxelMeters > 0.0
    {
      Tracks(ladder, chunks, asOf, filter, sent, Delivered(shown, wire))
    }

    constructor (ladder: Ladder, filter: Option<Filter>, chunks: map<Cell, Fine>)
      requires WellFormed(ladder) && forall c :: c in chunks ==> Servable(ladder, chunks[c]) && Sound(chunks[c].vox)
      ensures Valid() && InStep(map[]) && wire == [] && this.chunks == chunks && this.filter == filter
              && this.ladder == ladder
    {
      this.ladder, this.filter, this.chunks := ladder, filter, chunks;
      dirty, looked, sent, asOf, wire := {}, false, map[], map[], [];
    }

    /** The content a chunk's new record stands for. */
    ghost function Stamp(was: map<Cell, Stages>, s: Sending, chunk: Cell): Option<Stages>
      reads this
      requires s.held.Some? ==> chunk in chunks
    {
      if s.held.None? then None else NextStages(At(was, chunk), chunks[chunk], s)
    }

    /** Apply what handling one chunk decided. */
    ghost predicate Sent(before: map<Cell, Held>, was: map<Cell, Stages>, queue: seq<Message>, chunk: Cell, s: Sending)
      reads this
      requires s.held.Some? ==> chunk in chunks
    {
      sent == Put(before, chunk, s.held) && asOf == Put(was, chunk, Stamp(was, s, chunk)) && wire == queue + s.messages
    }

    method SendDrop(chunk: Cell)
      modifies this`sent, this`asOf, this`wire
      ensures Sent(old(sent), old(asOf), old(wire), chunk, Dropped(At(old(sent), chunk), chunk))
    {
      if chunk in sent {
        wire := wire + [ChunkDrop(chunk)];
        sent := sent - {chunk};
      } else {
        assert sent - {chunk} == sent && wire + [] == wire;
      }
      asOf := asOf - {chunk};
    }

    method SendKeyframe(chunk: Cell, level: nat)
      requires Valid() && chunk in chunks
      modifies this`sent, this`asOf, this`wire
      ensures Sent(old(sent), old(asOf), old(wire), chunk,
                   Keyframe(ladder, chunks[chunk], filter, At(old(sent), chunk), chunk, level))
    {
      var full := DeriveChunk(ladder, chunks[chunk], level, filter, None);
      if full.points == [] {
        SendDrop(chunk);
        return;
      }
      wire := wire + [ChunkLod(chunk, level, full.version, full.points)];
      sent := sent[chunk := Held(level, full.version, full.total, full.version)];
      asOf := asOf[chunk := Stages(chunks[chunk], chunks[chunk])];
    }

    /** Bring one changed chunk up to date in the viewer. */
    method RefreshChunk(chunk: Cell, level: Option<nat>)
      requires Valid() && chunk in chunks
      modifies this`sent, this`asOf, this`wire
      ensures Sent(old(sent), old(asOf), old(wire), chunk,
                   Refreshed(ladder, chunks[chunk], filter, At(old(sent), chunk), chunk, level))
      ensures forall shown :: old(InStep(shown)) ==> InStep(shown)
    {
      ghost var s := Refreshed(ladder, chunks[chunk], filter, At(sent, chunk), chunk, level);
      ghost var before, was, queue := sent, asOf, wire;
      if level.None? {
        SendDrop(chunk);
      } else if chunk !in sent || sent[chunk].level != level.value {
        SendKeyframe(chunk, level.value);
      } else {
        var held := sent[chunk];
        var delta := DeriveChunk(ladder, chunks[chunk], level.value, filter, Some(held.version));
        var added := |delta.points|;
        var diverged := delta.total != held.count + added;
        var settled := delta.version >= 2 * Max(held.keyframeVersion, 1);
        if diverged || settled {
          SendKeyframe(chunk, level.value);
        } else if added == 0 {
          sent := sent[chunk := held.(version := delta.version)];
          StayedFull(chunk);
          assert wire + [] == wire;
        } else {
          wire := wire + [ChunkDelta(chunk, level.value, delta.version, delta.points)];
          sent := sent[chunk := held.(version := delta.version, count := delta.total)];
          StayedFull(chunk);
        }
      }
      SentTracks(before, was, queue, chunk, level, s);
    }

    /** Note that a chunk was refreshed without being sent in full. */
    ghost method StayedFull(chunk: Cell)
      requires chunk in chunks
      modifies this`asOf
      ensures asOf == old(asOf)[chunk := Stages(if chunk in old(asOf) then old(asOf)[chunk].full else chunks[chunk],
                                                chunks[chunk])]
    {
      asOf := asOf[chunk := Stages(if chunk in asOf then asOf[chunk].full else chunks[chunk], chunks[chunk])];
    }

    lemma SentTracks(before: map<Cell, Held>, was: map<Cell, Stages>, queue: seq<Message>, chunk: Cell,
                     level: Option<nat>, s: Sending)
      requires Valid() && chunk in chunks && Sent(before, was, queue, chunk, s)
      requires s == Refreshed(ladder, chunks[chunk], filter, At(before, chunk), chunk, level)
            || (level.Some? && s == Keyframe(ladder, chunks[chunk], filter, At(before, chunk), chunk, level.value))
      ensures forall shown :: Tracks(ladder, chunks, was, filter, before, Delivered(shown, queue)) ==> InStep(shown)
    {
      hide Refreshed, Keyframe, Tracked, Delivered, Faithful;
      forall shown | Tracks(ladder, chunks, was, filter, before, Delivered(shown, queue))
        ensures InStep(shown)
      {
        DeliveredJoin(shown, queue, s.messages);
        var now := Delivered(shown, queue);
        var f, held, points := chunks[chunk], At(before, chunk), if chunk in now then now[chunk] else [];
        var asOf := if chunk in was then was[chunk] else Stages(f, f);
        RefreshedTracks(ladder, f, asOf, filter, held, points, chunk, level);
        if level.Some? { KeyframeTracks(ladder, f, asOf.full, filter, held, points, chunk, level.value); }
        FaithfulDrop(ladder, f, asOf.full, filter, held, points, chunk, s);
        SendingTracks(ladder, chunks, was, filter, before, now, chunk, s);
      }
    }

    /** The viewer moved: `select` gives each chunk's level, or nothing when it is culled. */
    method OnViewerView(select: Cell -> Option<nat>)
      requires Valid()
      modifies this`sent, this`asOf, this`wire, this`looked
      ensures Valid() && looked
      ensures forall shown :: old(InStep(shown)) ==> InStep(shown)
      ensures forall c :: c in chunks ==>
                At(sent, c) == Looked(ladder, chunks[c], filter, At(old(sent), c), c, select(c)).held
      ensures forall c :: c in sent ==> c in chunks && select(c) == Some(sent[c].level)
      ensures forall c :: c in chunks && c in old(sent) && select(c) == Some(old(sent)[c].level) ==>
                c in sent && sent[c] == old(sent)[c]
      ensures AboutChanged(old(sent), sent, old(wire), wire)
    {
      hide Tracks, Keyframe, Delivered;
      looked := true;
      var todo := chunks.Keys;
      ghost var before := sent;
      while todo != {}
        invariant todo <= chunks.Keys && looked
        invariant forall shown :: old(InStep(shown)) ==> InStep(shown)
        invariant forall c :: c in chunks && c !in todo && select(c).Some? ==>
                    At(sent, c) == Looked(ladder, chunks[c], filter, At(before, c), c, select(c)).held
        invariant forall c :: c in todo || c !in chunks || select(c).None? ==> At(sent, c) == At(before, c)
        invariant AboutChanged(before, sent, old(wire), wire)
        decreases todo
      {
        hide LodServer.InStep, Looked, AboutChanged;
        ghost var sentNow, wireNow := sent, wire;
        var c :| c in todo;
        todo := todo - {c};
        var level := select(c);
        if level.Some? {
          ShowAt(c, level.value);
          AboutOneMore(before, sentNow, sent, old(wire), wireNow, wire, c);
        }
      }
      DropCulled(select, before, old(wire));
      forall c | c in chunks
        ensures c in sent ==> select(c) == Some(sent[c].level)
        ensures c in before && select(c) == Some(before[c].level) ==> c in sent && sent[c] == before[c]
      {
        LookedSays(ladder, chunks[c], filter, At(before, c), c, select(c));
      }
    }

    /** A visible chunk goes out whole when it was not sent at this level yet. */
    method ShowAt(c: Cell, level: nat)
      requires Valid() && c in chunks
      modifies this`sent, this`asOf, this`wire
      ensures forall shown :: old(InStep(shown)) ==> InStep(shown)
      ensures At(sent, c) == Looked(ladder, chunks[c], filter, At(old(sent), c), c, Some(level)).held
      ensures forall d :: d != c ==> At(sent, d) == At(old(sent), d)
      ensures if At(sent, c) == At(old(sent), c) then wire == old(wire) else SaysOneMore(old(wire), wire, c)
    {
      hide Tracks, Delivered;
      ghost var was, stamps, queue := sent, asOf, wire;
      if c !in sent || sent[c].level != level {
        SendKeyframe(c, level);
        SentTracks(was, stamps, queue, c, Some(level), Keyframe(ladder, chunks[c], filter, At(was, c), c, level));
      }
    }

    method DropCulled(select: Cell -> Option<nat>, ghost before: map<Cell, Held>, ghost queue: seq<Message>)
      requires Valid() && AboutChanged(before, sent, queue, wire)
      requires forall c :: c !in chunks || select(c).None? ==> At(sent, c) == At(before, c)
      requires forall c :: c in chunks && select(c).Some? ==>
                 At(sent, c) == Looked(ladder, chunks[c], filter, At(before, c), c, select(c)).held
      modifies this`sent, this`asOf, this`wire
      ensures forall shown :: old(InStep(shown)) ==> InStep(shown)
      ensures forall c :: c in chunks ==>
                At(sent, c) == Looked(ladder, chunks[c], filter, At(before, c), c, select(c)).held
      ensures forall c :: c in sent ==> c in chunks && select(c).Some?
      ensures AboutChanged(before, sent, queue, wire)
    {
      hide Tracks, Keyframe, Delivered, AboutChanged;
      var todo := sent.Keys;
      while todo != {}
        invariant AboutChanged(before, sent, queue, wire)
        invariant forall c :: c in todo && (c !in chunks || select(c).None?) ==> At(sent, c) == At(before, c)
        invariant forall shown :: old(InStep(shown)) ==> InStep(shown)
        invariant forall c :: c in chunks && select(c).Some? ==>
                    At(sent, c) == Looked(ladder, chunks[c], filter, At(before, c), c, select(c)).held
        invariant forall c :: c in sent && c !in todo ==> c in chunks && select(c).Some?
        decreases todo
      {
        hide LodServer.InStep, Looked, SaysOneMore;
        var c :| c in todo;
        todo := todo - {c};
        if c !in chunks || select(c).None? {
          ghost var was, sofar := sent, wire;
          CullOne(c);
          AboutOneMore(before, was, sent, queue, sofar, wire, c);
        }
      }
    }

    method CullOne(c: Cell)
      requires Valid() && c in sent
      modifies this`sent, this`asOf, this`wire
      ensures forall shown :: old(InStep(shown)) ==> InStep(shown)
      ensures sent == old(sent) - {c}
      ensures SaysOneMore(old(wire), wire, c)
    {
      hide Tracks, Delivered;
      ghost var was, stamps, queue := sent, asOf, wire;
      SendDrop(c);
      DropTracks(was, stamps, queue, c);
    }

    lemma DropTracks(before: map<Cell, Held>, was: map<Cell, Stages>, queue: seq<Message>, chunk: Cell)
      requires Valid() && Sent(before, was, queue, chunk, Dropped(At(before, chunk), chunk))
      ensures forall shown :: Tracks(ladder, chunks, was, filter, before, Delivered(shown, queue)) ==> InStep(shown)
    {
      hide Delivered, Tracks;
      var s := Dropped(At(before, chunk), chunk);
      forall shown | Tracks(ladder, chunks, was, filter, before, Delivered(shown, queue))
        ensures InStep(shown)
      {
        DeliveredJoin(shown, queue, s.messages);
        SendingTracks(ladder, chunks, was, filter, before, Delivered(shown, queue), chunk, s);
      }
    }

    /** The refresh tick: bring every changed chunk up to date against the viewer's last view. */
    method RefreshLiveBases(select: Cell -> Option<nat>)
      requires Valid()
      modifies this`sent, this`asOf, this`wire, this`dirty
      ensures Valid() && dirty == {}
      ensures forall shown :: old(InStep(shown)) ==> InStep(shown)
      ensures forall c :: c in chunks ==>
                At(sent, c) == if c in old(dirty) && looked
                               then Refreshed(ladder, chunks[c], filter, At(old(sent), c), c, select(c)).held
                                   else At(old(sent), c)
      ensures forall c :: c in sent && c in chunks && c in old(dirty) && looked ==>
                c in asOf && asOf[c].last == chunks[c]
      ensures forall c :: c !in chunks || c !in old(dirty) || !looked ==> At(asOf, c) == At(old(asOf), c)
    {
      hide Tracks, Refreshed, Delivered;
      if looked {
        var todo := dirty;
        while todo != {}
          invariant todo <= dirty == old(dirty)
          invariant forall shown :: old(InStep(shown)) ==> InStep(shown)
          invariant forall c :: c in chunks ==>
                      At(sent, c) == if c in dirty && c !in todo
                                     then Refreshed(ladder, chunks[c], filter, At(old(sent), c), c, select(c)).held
                                         else At(old(sent), c)
          invariant forall c :: c in sent && c in chunks && c in dirty && c !in todo ==>
                      c in asOf && asOf[c].last == chunks[c]
          invariant forall c :: c !in chunks || c !in dirty || c in todo ==> At(asOf, c) == At(old(asOf), c)
          decreases todo
        {
          hide LodServer.InStep;
          var c :| c in todo;
          todo := todo - {c};
          if c in chunks {
            RefreshChunk(c, select(c));
          }
        }
      }
      dirty := {};
    }

    /** Batches were fused: chunks grew, or were registered. */
    method Grow(grown: map<Cell, Fine>, changed: set<Cell>)
      requires Valid() && forall c :: c in chunks ==> c in grown && Grows(chunks[c], grown[c])
      requires forall c :: c in grown ==> Servable(ladder, grown[c]) && Sound(grown[c].vox)
      modifies this`chunks, this`dirty
      ensures Valid() && chunks == grown && dirty == old(dirty) + changed
      ensures forall shown :: old(InStep(shown)) ==> InStep(shown)
    {
      forall shown | InStep(shown)
        ensures Tracks(ladder, grown, asOf, filter, sent, Delivered(shown, wire))
      {
        GrowthTracks(ladder, chunks, grown, asOf, filter, sent, Delivered(shown, wire));
      }
      chunks := grown;
      dirty := dirty + changed;
    }

    /** The session was re-fused: tell the viewer to clear, forget what was sent, mark everything dirty. */
    method NotifySessionRebuilt(rebuilt: map<Cell, Fine>)
      requires Valid() && forall c :: c in rebuilt ==> Servable(ladder, rebuilt[c]) && Sound(rebuilt[c].vox)
      modifies this`chunks, this`dirty, this`sent, this`asOf, this`wire
      ensures Valid() && chunks == rebuilt && dirty == old(dirty) + rebuilt.Keys
      ensures sent == map[] && wire == old(wire) + [SessionRebuilt]
      ensures forall shown :: InStep(shown)
    {
      forall shown ensures Delivered(shown, wire + [SessionRebuilt]) == map[] {
        DeliveredJoin(shown, wire, [SessionRebuilt]);
        DeliveredOne(Delivered(shown, wire), SessionRebuilt);
      }
      chunks := rebuilt;
      sent, asOf := map[], map[];
      wire := wire + [SessionRebuilt];
      dirty := dirty + rebuilt.Keys;
    }
  }
}
