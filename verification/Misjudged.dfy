/** Two small logs and one correction for which a partial rebuild leaves the registry or a count wrong. */
module Misjudged {
  import opened Voxels
  import opened Poses
  import opened LogHistory
  import opened StoreMachine
  import opened StoreSafety
  import opened RigidMotion
  import opened PoseCorrections
  import opened RebuildSpec
  import opened ChunkStores
  import opened PartialSpec
  import opened PartialRebuild
  import opened ViewAdjust

  const HERE := Pose(Vec(0.0, 0.0, 0.0), ONE)
  const AWAY := Pose(Vec(100.0, 0.0, 0.0), ONE)

  function At(x: real): Point {
    Point(Vec(x, 0.5, 0.5), 0, 0, 0, 0)
  }

  /** One point, seen from the origin, in a batch sent under its own number. */
  function Seen(sequence: nat, x: real): Batch {
    Batch(sequence, sequence, HERE, [At(x)])
  }

  /** Chunks of 64 metres; whoever is near the origin sees all of them. */
  ghost function Before(): Setting {
    Standard(1.0, 64.0, (session: SessionId, pose: Pose, chunk: Cell) => pose.translation.x < 50.0,
             (session: SessionId, n: nat, pose: Pose) => pose)
  }

  /** The first pose is corrected by a hundred metres. */
  ghost function After(): Setting {
    Standard(1.0, 64.0, Before().inView,
             (session: SessionId, n: nat, pose: Pose) =>
               if session == "s" then Effective(Corrections([Correction(1, AWAY)], None), n, pose) else pose)
  }

  function Chunk(x: int): Cell {
    Cell(x, 0, 0)
  }

  lemma Geometry()
    ensures DiffersIn(Before(), After(), "s") && Stable(Before().voxelOf) && After().voxelOf == Before().voxelOf
    ensures After().effective("s", 1, HERE) == AWAY && After().effective("s", 2, HERE) == HERE
    ensures forall n: nat, pose: Pose :: Before().effective("s", n, pose) == pose
    ensures forall c: Cell :: Before().inView("s", HERE, c) && !Before().inView("s", AWAY, c)
    ensures After().inView == Before().inView
  {
    hide RotateAndTranslate, Grid;
    assert FirstAt([Correction(1, AWAY)], 1) == 0;
    assert FirstAt([Correction(1, AWAY)], 2) == 1;
    GridIsStable(1.0);
  }

  lemma Turned(x: real, shift: real)
    ensures RotateAndTranslate(Pose(Vec(shift, 0.0, 0.0), ONE), At(x).at) == Vec(x + shift, 0.5, 0.5)
  {
    RotationByOne(At(x).at);
    hide RotateVector;
  }

  lemma World(pose: Pose, v: Vec)
    ensures Before().world(pose, v) == RotateAndTranslate(pose, v) && Before().chunkOf == Grid(64.0)
    ensures After().world(pose, v) == RotateAndTranslate(pose, v) && After().chunkOf == Grid(64.0)
  {
    hide RotateAndTranslate, Grid, Effective;
  }

  lemma InCell(x: real, c: int)
    requires c as real * 64.0 <= x < (c + 1) as real * 64.0
    ensures Grid(64.0)(Vec(x, 0.5, 0.5)) == Chunk(c)
  {
    FloorDivIs(x, 64.0, c);
    FloorDivIs(0.5, 64.0, 0);
    assert Grid(64.0)(Vec(x, 0.5, 0.5)) == CellOf(Vec(x, 0.5, 0.5), 64.0);
  }

  /** Where one point lands. */
  lemma LandsIn(x: real, shift: real, c: int)
    requires c as real * 64.0 <= x + shift < (c + 1) as real * 64.0
    ensures var pose := Pose(Vec(shift, 0.0, 0.0), ONE);
            && Spanned(Before(), pose, [At(x)]) == {Chunk(c)} && Spanned(After(), pose, [At(x)]) == {Chunk(c)}
  {
    hide RotateAndTranslate, Grid, Spanned, Before, After;
    var pose := Pose(Vec(shift, 0.0, 0.0), ONE);
    Turned(x, shift);
    InCell(x + shift, c);
    World(pose, At(x).at);
    OnePointSpans(Before(), pose, At(x));
    OnePointSpans(After(), pose, At(x));
  }

  lemma OnePointSpans(g: Setting, pose: Pose, p: Point)
    ensures Spanned(g, pose, [p]) == {g.chunkOf(Place(g, pose, p).at)}
  {
    assert [p][..0] == [];
  }

  // ---------------------------------------------------------------- two batches, the first corrected

  function Pair(x: real): seq<Batch> {
    [Seen(1, x), Seen(2, 0.5)]
  }

  function Rows(g: Setting, x: real): seq<IndexRow> {
    [RowFor(g, "s", Pair(x)[0], 0), RowFor(g, "s", Pair(x)[1], 1)]
  }

  /** The first batch was fused in chunk `a` and belongs in chunk `b`; the second is in the first chunk. */
  ghost predicate Moves(g: Setting, g': Setting, x: real, a: int, b: int) {
    var first, second := Pair(x)[0], Pair(x)[1];
    && DiffersIn(g, g', "s") && Stable(g'.voxelOf)
    && PoseOf(g, "s", first) == HERE && PoseOf(g', "s", first) == AWAY
    && PoseOf(g, "s", second) == HERE && PoseOf(g', "s", second) == HERE
    && Spanned(g, HERE, first.points) == {Chunk(a)} && Spanned(g', AWAY, first.points) == {Chunk(b)}
    && Spanned(g, HERE, second.points) == {Chunk(0)} && Spanned(g', HERE, second.points) == {Chunk(0)}
    && (forall c: Cell :: g.inView("s", HERE, c) && !g.inView("s", AWAY, c))
  }

  lemma FirstMoves(x: real, a: int, b: int)
    requires a as real * 64.0 <= x < (a + 1) as real * 64.0
    requires b as real * 64.0 <= x + 100.0 < (b + 1) as real * 64.0
    ensures Moves(Before(), After(), x, a, b)
  {
    hide Before, After, Spanned, Stable, DiffersIn;
    Geometry();
    LandsIn(x, 0.0, a);
    LandsIn(x, 100.0, b);
    LandsIn(0.5, 0.0, 0);
  }

  /** What the corrected rebuild works from. */
  lemma PlanOfPair(g: Setting, g': Setting, x: real, a: int, b: int)
    requires Moves(g, g', x, a, b)
    ensures Plan(g, g', "s", Rows(g, x), Pair(x), {0}, {Chunk(a), Chunk(b)})
  {
    hide Spanned, Stable, DiffersIn;
  }

  /** Who is touched by which batch. */
  lemma TouchedBy(g: Setting, g': Setting, x: real, a: int, b: int, c: int)
    requires Moves(g, g', x, a, b)
    ensures var k := Key("s", Chunk(c));
            && (Touches(g, k, Pair(x)[0]) <==> c == a) && (Touches(g', k, Pair(x)[0]) <==> c == b)
            && (Touches(g, k, Pair(x)[1]) <==> c == 0) && (Touches(g', k, Pair(x)[1]) <==> c == 0)
  {
    hide Spanned, Stable, DiffersIn, Touches;
    var k := Key("s", Chunk(c));
    TouchIsSpan(g, k, Pair(x)[0]);
    TouchIsSpan(g', k, Pair(x)[0]);
    TouchIsSpan(g, k, Pair(x)[1]);
    TouchIsSpan(g', k, Pair(x)[1]);
  }

  lemma FoldOfPair(g: Setting, k: Key, x: real)
    ensures FoldAll(g, k, Pair(x)[..0]) == NOTHING
    ensures FoldAll(g, k, Pair(x)[..1]) == Observe(g, k, NOTHING, Pair(x)[0])
    ensures FoldAll(g, k, Pair(x)) == Observe(g, k, FoldAll(g, k, Pair(x)[..1]), Pair(x)[1])
  {
    var log := Pair(x);
    assert log[..1][..0] == log[..0] == [];
    assert log[..|log| - 1] == log[..1];
  }

  // ---------------------------------------------------------------- a rebuilt chunk forgotten

  lemma KnownInPair(g: Setting, g': Setting, x: real, a: int, b: int, c: int)
    requires Moves(g, g', x, a, b)
    ensures FoldAll(g', Key("s", Chunk(c)), Pair(x)).known <==> c == b || c == 0
  {
    TouchedBy(g, g', x, a, b, c);
    FoldOfPair(g', Key("s", Chunk(c)), x);
    hide Moves, FoldAll;
  }

  /**
   * Both batches fit a budget of one resident chunk, one of the two is corrected, and the two chunks to
   * rebuild both end up populated: one more than the budget keeps.
   */
  lemma PopulatedPastBudget()
    ensures var g, g', log, affected := Before(), After(), Pair(0.5), {Chunk(0), Chunk(1)};
            && Plan(g, g', "s", Rows(g, 0.5), log, {0}, affected)
            && (forall i :: 0 <= i < |log| ==> |Spanned(g, log[i].pose, log[i].points)| == 1)
            && Populated(g', "s", affected, log) == affected && |affected| == 2
  {
    hide Before, After, Plan, Populated, Moves, Spanned;
    FirstMoves(0.5, 0, 1);
    PlanOfPair(Before(), After(), 0.5, 0, 1);
    BothPopulated(Before(), After());
    assert Chunk(0) != Chunk(1);
  }

  lemma BothPopulated(g: Setting, g': Setting)
    requires Moves(g, g', 0.5, 0, 1)
    ensures Populated(g', "s", {Chunk(0), Chunk(1)}, Pair(0.5)) == {Chunk(0), Chunk(1)}
    ensures forall i :: 0 <= i < |Pair(0.5)| ==> |Spanned(g, Pair(0.5)[i].pose, Pair(0.5)[i].points)| == 1
  {
    KnownInPair(g, g', 0.5, 0, 1, 0);
    KnownInPair(g, g', 0.5, 0, 1, 1);
    hide FoldAll, Spanned, Stable, DiffersIn;
  }

  /** So a store with that budget that holds the two batches forgets a registered cell when it rebuilds. */
  method RebuildForgets(store: ChunkStore, corrected: Setting)
    requires store.Valid() && store.setting == Before() && corrected == After() && store.maxDirtyChunks == 1
    requires Inv(store.setting, store.Current()) && CaughtUp(store.Current(), "s")
    requires store.disk.logs["s"].records == Pair(0.5) && "s" in store.index && store.index["s"] == Rows(Before(), 0.5)
    requires Registered(store.setting, store.Current(), "s")
    modifies store
    ensures "s" in store.disk.logs && store.disk.logs["s"].records == Pair(0.5)
    ensures !Registered(corrected, store.Current(), "s")
  {
    hide Before, After, Inv, Registered, Affects, Plan, Corrected, LeftAlone, Adjusted;
    PopulatedPastBudget();
    PlanHas(Before(), After(), "s", Rows(Before(), 0.5), Pair(0.5), {0}, {Chunk(0), Chunk(1)});
    var affected := RebuildBatches(store, "s", corrected, {0});
    SameAffected(corrected, "s", Rows(Before(), 0.5), Pair(0.5), {0}, affected, {Chunk(0), Chunk(1)});
  }

  lemma PlanHas(g: Setting, g': Setting, session: SessionId, rows: seq<IndexRow>, log: seq<Batch>, changed: set<nat>,
                affected: set<Cell>)
    requires Plan(g, g', session, rows, log, changed, affected)
    ensures DiffersIn(g, g', session) && Stable(g'.voxelOf) && |rows| == |log|
    ensures Describes(g, session, rows, log) && Covers(g', session, rows, log, changed)
    ensures Affects(g', session, rows, log, changed, |rows|, affected)
  {
  }

  lemma SameAffected(g: Setting, session: SessionId, rows: seq<IndexRow>, log: seq<Batch>, changed: set<nat>,
                     a: set<Cell>, b: set<Cell>)
    requires |rows| == |log| && Affects(g, session, rows, log, changed, |rows|, a)
    requires Affects(g, session, rows, log, changed, |rows|, b)
    ensures a == b
  {
  }

  // ---------------------------------------------------------------- a count taken back that was never given

  /**
   * The first batch lies elsewhere but once saw the chunk that only the second batch touches. Corrected
   * away, it takes back an opportunity it never gave: one batch counts for the chunk, and none is left.
   */
  lemma CountTakenBack(st: Stats)
    requires st.opportunities == FoldAll(Before(), Key("s", Chunk(0)), Pair(200.5)).opportunities
    ensures var g, g', log, affected, k := Before(), After(), Pair(200.5), {Chunk(3), Chunk(4)}, Key("s", Chunk(0));
            && Plan(g, g', "s", Rows(g, 200.5), log, {0}, affected) && k.chunk !in affected
            && FoldAll(g', k, log).opportunities == 1
            && Adjusted(g', "s", Rows(g, 200.5), {0}, affected, 2, k, st).opportunities == 0
            && Net(g, g', k, log, {0}, 2) == -1 && Clamps(g', "s", Rows(g, 200.5), {0}, affected, 2, k, st) == 0
  {
    hide Before, After, Plan, Moves, FoldAll, Net, Clamps, Adjusted, Rows, Pair;
    FirstMoves(200.5, 3, 4);
    PlanOfPair(Before(), After(), 200.5, 3, 4);
    TakenBackFrom(Before(), After(), st);
  }

  lemma TakenBackFrom(g: Setting, g': Setting, st: Stats)
    requires Moves(g, g', 200.5, 3, 4) && st.opportunities == FoldAll(g, Key("s", Chunk(0)), Pair(200.5)).opportunities
    ensures var log, affected, k := Pair(200.5), {Chunk(3), Chunk(4)}, Key("s", Chunk(0));
            && FoldAll(g', k, log).opportunities == 1
            && Adjusted(g', "s", Rows(g, 200.5), {0}, affected, 2, k, st).opportunities == 0
            && Net(g, g', k, log, {0}, 2) == -1 && Clamps(g', "s", Rows(g, 200.5), {0}, affected, 2, k, st) == 0
  {
    hide Plan, Moves, FoldAll, Net, Clamps, Adjusted;
    var log, affected, k := Pair(200.5), {Chunk(3), Chunk(4)}, Key("s", Chunk(0));
    PlanOfPair(g, g', 200.5, 3, 4);
    CountedOnceEach(g, g', k, 200.5, 3, 4);
    TakenBack(g, g', k, 200.5, 3, 4, affected, st);
    AdjustedPartWay(g, g', k, Rows(g, 200.5), log, {0}, affected, st, 2);
    assert log[..2] == log;
  }

  lemma CountedOnceEach(g: Setting, g': Setting, k: Key, x: real, a: int, b: int)
    requires Moves(g, g', x, a, b) && a != 0 && b != 0 && k == Key("s", Chunk(0))
    ensures FoldAll(g, k, Pair(x)).opportunities == 1 && FoldAll(g', k, Pair(x)).opportunities == 1
    ensures !FoldAll(g, k, Pair(x)[..0]).known && !FoldAll(g, k, Pair(x)[..1]).known
  {
    TouchedBy(g, g', x, a, b, 0);
    FoldOfPair(g, k, x);
    FoldOfPair(g', k, x);
    hide Moves, FoldAll;
  }

  lemma TakenBack(g: Setting, g': Setting, k: Key, x: real, a: int, b: int, affected: set<Cell>, st: Stats)
    requires Moves(g, g', x, a, b) && k == Key("s", Chunk(0)) && !FoldAll(g, k, Pair(x)[..0]).known
    requires st.opportunities > 0
    ensures Net(g, g', k, Pair(x), {0}, 2) == -1
    ensures Clamps(g', "s", Rows(g, x), {0}, affected, 2, k, st) == 0
  {
    hide FoldAll, Spanned;
    assert InView(g, k, Pair(x)[0]) && !InView(g', k, Pair(x)[0]);
    assert Net(g, g', k, Pair(x), {0}, 0) == 0;
    assert Net(g, g', k, Pair(x), {0}, 1) == -1;
    assert Adjusted(g', "s", Rows(g, x), {0}, affected, 0, k, st) == st;
    assert Clamps(g', "s", Rows(g, x), {0}, affected, 0, k, st) == 0;
    assert Clamps(g', "s", Rows(g, x), {0}, affected, 1, k, st) == 0;
  }
}
