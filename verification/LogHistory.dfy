/** The meaning of a batch log: what each chunk holds after a prefix of its records, fused once each. */
module LogHistory {
  import opened Voxels
  import opened Poses

  type SessionId = string

  /** A chunk of a session. */
  datatype Key = Key(session: SessionId, chunk: Cell)

  /** One logged batch: sequence numbers, the pose it was sent with, and its sensor-frame points. */
  datatype Batch = Batch(sequence: nat, poseSequence: nat, pose: Pose, points: seq<Point>)

  /**
   * Everything fusion depends on besides the batches. The fields are arbitrary functions, so
   * results about a Setting hold for every transform, grid, field of view and correction.
   */
  datatype Setting = Setting(
    world: (Pose, Vec) -> Vec,
    chunkOf: Vec -> Cell,
    voxelOf: Vec -> Cell,
    inView: (SessionId, Pose, Cell) -> bool,
    effective: (SessionId, nat, Pose) -> Pose)

  /** What a chunk holds: its voxels, its opportunity count, and whether any point ever fell in it. */
  datatype Content = Content(vox: VoxelMap, opportunities: nat, known: bool)

  const NOTHING := Content(EMPTY, 0, false)

  function Place(g: Setting, pose: Pose, p: Point): Point {
    p.(at := g.world(pose, p.at))
  }

  function PoseOf(g: Setting, session: SessionId, b: Batch): Pose {
    g.effective(session, b.poseSequence, b.pose)
  }

  /** The world points of a payload that fall in one chunk, in payload order. */
  function Landed(g: Setting, pose: Pose, points: seq<Point>, chunk: Cell): seq<Point> {
    if |points| == 0 then []
    else
      var rest := Landed(g, pose, points[..|points| - 1], chunk);
      var w := Place(g, pose, points[|points| - 1]);
      if g.chunkOf(w.at) == chunk then rest + [w] else rest
  }

  function LandedIn(g: Setting, k: Key, b: Batch): seq<Point> {
    Landed(g, PoseOf(g, k.session, b), b.points, k.chunk)
  }

  predicate Touches(g: Setting, k: Key, b: Batch) {
    LandedIn(g, k, b) != []
  }

  predicate InView(g: Setting, k: Key, b: Batch) {
    g.inView(k.session, PoseOf(g, k.session, b), k.chunk)
  }

  /** Fuse one batch into a chunk: count the opportunity first, then add the points. */
  function Observe(g: Setting, k: Key, c: Content, b: Batch): Content {
    var pts := LandedIn(g, k, b);
    var seen := pts != [] || (c.known && InView(g, k, b));
    var opportunities := if seen then c.opportunities + 1 else c.opportunities;
    Content(AddPoints(g.voxelOf, c.vox, pts, opportunities), opportunities, c.known || pts != [])
  }

  /** Every logged batch fused exactly once, in log order, starting from `c`. */
  function FoldFrom(g: Setting, k: Key, c: Content, log: seq<Batch>): Content {
    if |log| == 0 then c
    else Observe(g, k, FoldFrom(g, k, c, log[..|log| - 1]), log[|log| - 1])
  }

  function FoldAll(g: Setting, k: Key, log: seq<Batch>): Content {
    FoldFrom(g, k, NOTHING, log)
  }

  /** The fold of the records whose sequence is at most `upTo`. */
  function History(g: Setting, k: Key, log: seq<Batch>, upTo: nat): Content {
    if |log| == 0 then NOTHING
    else
      var b := log[|log| - 1];
      var before := History(g, k, log[..|log| - 1], upTo);
      if b.sequence > upTo then before else Observe(g, k, before, b)
  }

  /** Logged sequences start above zero and strictly increase. */
  ghost predicate Increasing(log: seq<Batch>) {
    && (forall i :: 0 <= i < |log| ==> log[i].sequence > 0)
    && (forall i, j :: 0 <= i < j < |log| ==> log[i].sequence < log[j].sequence)
  }

  /** No record with sequence in (after, upTo] has a point in the chunk. */
  ghost predicate Quiet(g: Setting, k: Key, log: seq<Batch>, after: nat, upTo: nat) {
    forall i :: 0 <= i < |log| && after < log[i].sequence <= upTo ==> !Touches(g, k, log[i])
  }

  /** The sequence of the last of the first `n` records; 0 when there is none. */
  function Position(log: seq<Batch>, n: nat): nat
    requires n <= |log|
  {
    if n == 0 then 0 else log[n - 1].sequence
  }

  lemma {:induction false} HistoryAtZero(g: Setting, k: Key, log: seq<Batch>)
    requires Increasing(log)
    ensures History(g, k, log, 0) == NOTHING
    decreases |log|
  {
    if |log| > 0 {
      HistoryAtZero(g, k, log[..|log| - 1]);
    }
  }

  lemma {:induction false} HistoryIsFold(g: Setting, k: Key, log: seq<Batch>, upTo: nat)
    requires Increasing(log)
    requires |log| == 0 || log[|log| - 1].sequence <= upTo
    ensures History(g, k, log, upTo) == FoldAll(g, k, log)
    decreases |log|
  {
    if |log| > 0 {
      HistoryIsFold(g, k, log[..|log| - 1], upTo);
    }
  }

  lemma {:induction false} HistoryPrefix(g: Setting, k: Key, log: seq<Batch>, n: nat, upTo: nat)
    requires Increasing(log) && n <= |log|
    requires n == |log| || upTo < log[n].sequence
    ensures History(g, k, log, upTo) == History(g, k, log[..n], upTo)
    decreases |log|
  {
    if n < |log| {
      HistoryPrefix(g, k, log[..|log| - 1], n, upTo);
      assert log[..|log| - 1][..n] == log[..n];
    } else {
      assert log[..n] == log;
    }
  }

  /** A record's own sequence cuts the history just after it: nothing lies between it and its predecessor. */
  lemma HistoryStep(g: Setting, k: Key, log: seq<Batch>, n: nat)
    requires Increasing(log) && n < |log|
    ensures History(g, k, log, log[n].sequence) == Observe(g, k, History(g, k, log, Position(log, n)), log[n])
    ensures History(g, k, log, Position(log, n)) == FoldAll(g, k, log[..n])
  {
    HistoryPrefix(g, k, log, n + 1, log[n].sequence);
    HistoryPrefix(g, k, log, n, Position(log, n));
    assert log[..n + 1][..n] == log[..n];
    HistoryIsFold(g, k, log[..n + 1], log[n].sequence);
    HistoryIsFold(g, k, log[..n], Position(log, n));
  }

  /** Records that do not touch a chunk leave its voxels alone. */
  lemma {:induction false} QuietKeepsVoxels(g: Setting, k: Key, log: seq<Batch>, a: nat, b: nat)
    requires a <= b && Increasing(log) && Quiet(g, k, log, a, b)
    ensures History(g, k, log, a).vox == History(g, k, log, b).vox
    ensures History(g, k, log, a).known == History(g, k, log, b).known
    decreases |log|
  {
    if |log| > 0 {
      var init, last := log[..|log| - 1], log[|log| - 1];
      if last.sequence <= a {
        HistoryIsFold(g, k, log, a);
        HistoryIsFold(g, k, log, b);
      } else {
        assert Quiet(g, k, init, a, b);
        QuietKeepsVoxels(g, k, init, a, b);
      }
    }
  }

  /** Opportunities and existence only grow along the log. */
  lemma {:induction false} HistoryGrows(g: Setting, k: Key, log: seq<Batch>, a: nat, b: nat)
    requires a <= b && Increasing(log)
    ensures History(g, k, log, a).opportunities <= History(g, k, log, b).opportunities
    ensures History(g, k, log, a).known ==> History(g, k, log, b).known
    decreases |log|
  {
    if |log| > 0 {
      var init, last := log[..|log| - 1], log[|log| - 1];
      if last.sequence <= a {
        HistoryIsFold(g, k, log, a);
        HistoryIsFold(g, k, log, b);
      } else {
        HistoryGrows(g, k, init, a, b);
      }
    }
  }

  /** A chunk exists exactly when some record touched it. */
  lemma {:induction false} KnownIffTouched(g: Setting, k: Key, log: seq<Batch>, upTo: nat)
    ensures History(g, k, log, upTo).known <==>
              exists i :: 0 <= i < |log| && log[i].sequence <= upTo && Touches(g, k, log[i])
    decreases |log|
  {
    if |log| > 0 {
      var init, last := log[..|log| - 1], log[|log| - 1];
      KnownIffTouched(g, k, init, upTo);
      if i :| 0 <= i < |init| && init[i].sequence <= upTo && Touches(g, k, init[i]) {
        assert log[i] == init[i];
      }
    }
  }

  lemma {:induction false} HistoryWellKeyed(g: Setting, k: Key, log: seq<Batch>, upTo: nat)
    requires Stable(g.voxelOf)
    ensures WellKeyed(g.voxelOf, History(g, k, log, upTo).vox)
    decreases |log|
  {
    if |log| > 0 {
      var before := History(g, k, log[..|log| - 1], upTo);
      HistoryWellKeyed(g, k, log[..|log| - 1], upTo);
      var b := log[|log| - 1];
      AddPointsWellKeyed(g.voxelOf, before.vox, LandedIn(g, k, b), Observe(g, k, before, b).opportunities);
    }
  }

  /** Appending a record does not rewrite the history before it. */
  lemma HistoryAppend(g: Setting, k: Key, log: seq<Batch>, b: Batch, upTo: nat)
    requires b.sequence > upTo
    ensures History(g, k, log + [b], upTo) == History(g, k, log, upTo)
  {
    assert (log + [b])[..|log|] == log;
  }
}
