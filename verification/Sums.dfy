/** What fused voxels and counters add up to, batch by batch and point by point. */
module Sums {
  import opened Voxels
  import opened Poses
  import opened LogHistory

  // ---------------------------------------------------------------- the parts of a point

  function Red(p: Point): int { p.r }

  function Green(p: Point): int { p.g }

  function Blue(p: Point): int { p.b }

  function Intensity(p: Point): int { p.i }

  function One(p: Point): int { 1 }

  function X(at: Vec): real { at.x }

  function Y(at: Vec): real { at.y }

  function Z(at: Vec): real { at.z }

  // ---------------------------------------------------------------- world points into voxels

  /** A part summed over the points of one voxel. */
  function Total(voxelOf: Vec -> Cell, c: Cell, ps: seq<Point>, part: Point -> int): int {
    if |ps| == 0 then 0
    else
      var p := ps[|ps| - 1];
      Total(voxelOf, c, ps[..|ps| - 1], part) + if voxelOf(p.at) == c then part(p) else 0
  }

  function TotalAt(voxelOf: Vec -> Cell, c: Cell, ps: seq<Point>, axis: Vec -> real): real {
    if |ps| == 0 then 0.0
    else
      var p := ps[|ps| - 1];
      TotalAt(voxelOf, c, ps[..|ps| - 1], axis) + if voxelOf(p.at) == c then axis(p.at) else 0.0
  }

  /** The sums a voxel starts from: its own, or nothing when it is new. */
  function Was(vm: VoxelMap, c: Cell): Acc {
    if c in vm.at then vm.at[c] else Acc(Vec(0.0, 0.0, 0.0), 0, 0, 0, 0, 0, 0)
  }

  /** Each component of a voxel grows by the sum of that component over the points of its cell. */
  lemma {:induction false} AddPointsSums(voxelOf: Vec -> Cell, vm: VoxelMap, ps: seq<Point>, o: nat, c: Cell)
    ensures var m := AddPoints(voxelOf, vm, ps, o);
            && (c in m.at <==> c in vm.at || Total(voxelOf, c, ps, One) > 0)
            && (c in m.at ==>
                  var was, now := Was(vm, c), m.at[c];
                  && now.n == was.n + Total(voxelOf, c, ps, One)
                  && now.sum.x == was.sum.x + TotalAt(voxelOf, c, ps, X)
                  && now.sum.y == was.sum.y + TotalAt(voxelOf, c, ps, Y)
                  && now.sum.z == was.sum.z + TotalAt(voxelOf, c, ps, Z)
                  && now.r == was.r + Total(voxelOf, c, ps, Red) && now.g == was.g + Total(voxelOf, c, ps, Green)
                  && now.b == was.b + Total(voxelOf, c, ps, Blue) && now.i == was.i + Total(voxelOf, c, ps, Intensity)
                  && now.o0 == if c in vm.at then was.o0 else o)
    decreases |ps|
  {
    if |ps| > 0 {
      var init := ps[..|ps| - 1];
      AddPointsSums(voxelOf, vm, init, o, c);
      HitsAreCounted(voxelOf, c, init, Red);
      HitsAreCounted(voxelOf, c, init, Green);
      HitsAreCounted(voxelOf, c, init, Blue);
      HitsAreCounted(voxelOf, c, init, Intensity);
      HitsArePlaced(voxelOf, c, init, X);
      HitsArePlaced(voxelOf, c, init, Y);
      HitsArePlaced(voxelOf, c, init, Z);
    }
  }

  /** A cell no point falls in adds up to nothing. */
  lemma {:induction false} HitsAreCounted(voxelOf: Vec -> Cell, c: Cell, ps: seq<Point>, part: Point -> int)
    ensures Total(voxelOf, c, ps, One) >= 0
    ensures Total(voxelOf, c, ps, One) == 0 ==> Total(voxelOf, c, ps, part) == 0
    decreases |ps|
  {
    if |ps| > 0 { HitsAreCounted(voxelOf, c, ps[..|ps| - 1], part); }
  }

  lemma {:induction false} HitsArePlaced(voxelOf: Vec -> Cell, c: Cell, ps: seq<Point>, axis: Vec -> real)
    ensures Total(voxelOf, c, ps, One) >= 0
    ensures Total(voxelOf, c, ps, One) == 0 ==> TotalAt(voxelOf, c, ps, axis) == 0.0
    decreases |ps|
  {
    if |ps| > 0 { HitsArePlaced(voxelOf, c, ps[..|ps| - 1], axis); }
  }

  // ---------------------------------------------------------------- a batch's points into a chunk's voxels

  /** The point lands in this voxel of this chunk. */
  predicate Lands(g: Setting, pose: Pose, chunk: Cell, c: Cell, p: Point) {
    g.chunkOf(g.world(pose, p.at)) == chunk && g.voxelOf(g.world(pose, p.at)) == c
  }

  /** A part of the sensor's own points, summed over those that land in a voxel of a chunk. */
  function Share(g: Setting, pose: Pose, chunk: Cell, c: Cell, points: seq<Point>, part: Point -> int): int {
    if |points| == 0 then 0
    else
      var p := points[|points| - 1];
      Share(g, pose, chunk, c, points[..|points| - 1], part) + if Lands(g, pose, chunk, c, p) then part(p) else 0
  }

  /** A coordinate of their world positions, summed likewise. */
  function ShareAt(g: Setting, pose: Pose, chunk: Cell, c: Cell, points: seq<Point>, axis: Vec -> real): real {
    if |points| == 0 then 0.0
    else
      var p := points[|points| - 1];
      ShareAt(g, pose, chunk, c, points[..|points| - 1], axis)
      + if Lands(g, pose, chunk, c, p) then axis(g.world(pose, p.at)) else 0.0
  }

  /** The points of a payload that land in a chunk carry their parts with them. */
  lemma {:induction false} LandedTotal(g: Setting, pose: Pose, chunk: Cell, c: Cell, points: seq<Point>,
                                       part: Point -> int)
    requires forall p: Point, at: Vec :: part(p.(at := at)) == part(p)
    ensures Total(g.voxelOf, c, Landed(g, pose, points, chunk), part) == Share(g, pose, chunk, c, points, part)
    decreases |points|
  {
    if |points| > 0 {
      LandedTotal(g, pose, chunk, c, points[..|points| - 1], part);
      var rest, w := Landed(g, pose, points[..|points| - 1], chunk), Place(g, pose, points[|points| - 1]);
      assert (rest + [w])[..|rest|] == rest;
    }
  }

  lemma {:induction false} LandedTotalAt(g: Setting, pose: Pose, chunk: Cell, c: Cell, points: seq<Point>,
                                         axis: Vec -> real)
    ensures TotalAt(g.voxelOf, c, Landed(g, pose, points, chunk), axis) == ShareAt(g, pose, chunk, c, points, axis)
    decreases |points|
  {
    if |points| > 0 {
      LandedTotalAt(g, pose, chunk, c, points[..|points| - 1], axis);
      var rest, w := Landed(g, pose, points[..|points| - 1], chunk), Place(g, pose, points[|points| - 1]);
      assert (rest + [w])[..|rest|] == rest;
    }
  }

  /** A voxel has grown by exactly what a payload put in it. */
  ghost predicate Gathers(g: Setting, pose: Pose, chunk: Cell, points: seq<Point>, was: VoxelMap, now: VoxelMap, o: nat,
                          c: Cell)
  {
    && (c in now.at <==> c in was.at || Share(g, pose, chunk, c, points, One) > 0)
    && (c in now.at ==>
          var before, after := Was(was, c), now.at[c];
          && after.n == before.n + Share(g, pose, chunk, c, points, One)
          && after.sum.x == before.sum.x + ShareAt(g, pose, chunk, c, points, X)
          && after.sum.y == before.sum.y + ShareAt(g, pose, chunk, c, points, Y)
          && after.sum.z == before.sum.z + ShareAt(g, pose, chunk, c, points, Z)
          && after.r == before.r + Share(g, pose, chunk, c, points, Red)
          && after.g == before.g + Share(g, pose, chunk, c, points, Green)
          && after.b == before.b + Share(g, pose, chunk, c, points, Blue)
          && after.i == before.i + Share(g, pose, chunk, c, points, Intensity)
          && after.o0 == if c in was.at then before.o0 else o)
  }

  /** Fusing a payload's points of a chunk does that to every voxel. */
  lemma LandedGathers(g: Setting, pose: Pose, chunk: Cell, points: seq<Point>, was: VoxelMap, o: nat, c: Cell)
    ensures Gathers(g, pose, chunk, points, was, AddPoints(g.voxelOf, was, Landed(g, pose, points, chunk), o), o, c)
    ensures Share(g, pose, chunk, c, points, One) >= 0
  {
    var ps := Landed(g, pose, points, chunk);
    AddPointsSums(g.voxelOf, was, ps, o, c);
    HitsAreCounted(g.voxelOf, c, ps, One);
    LandedTotal(g, pose, chunk, c, points, One);
    LandedTotal(g, pose, chunk, c, points, Red);
    LandedTotal(g, pose, chunk, c, points, Green);
    LandedTotal(g, pose, chunk, c, points, Blue);
    LandedTotal(g, pose, chunk, c, points, Intensity);
    LandedTotalAt(g, pose, chunk, c, points, X);
    LandedTotalAt(g, pose, chunk, c, points, Y);
    LandedTotalAt(g, pose, chunk, c, points, Z);
  }

  /** How many of the points land in the chunk. */
  function Arrivals(g: Setting, pose: Pose, chunk: Cell, points: seq<Point>): nat {
    if |points| == 0 then 0
    else
      Arrivals(g, pose, chunk, points[..|points| - 1])
      + if g.chunkOf(g.world(pose, points[|points| - 1].at)) == chunk then 1 else 0
  }

  lemma {:induction false} LandedArrive(g: Setting, pose: Pose, points: seq<Point>, chunk: Cell)
    ensures |Landed(g, pose, points, chunk)| == Arrivals(g, pose, chunk, points)
    decreases |points|
  {
    if |points| > 0 { LandedArrive(g, pose, points[..|points| - 1], chunk); }
  }

  // ---------------------------------------------------------------- a whole log

  /** The batch puts a point in the chunk. */
  ghost predicate Puts(g: Setting, k: Key, b: Batch) {
    exists i :: 0 <= i < |b.points|
                && g.chunkOf(g.world(g.effective(k.session, b.poseSequence, b.pose), b.points[i].at)) == k.chunk
  }

  /** The batch was taken where the sensor could see the chunk. */
  predicate Sees(g: Setting, k: Key, b: Batch) {
    g.inView(k.session, g.effective(k.session, b.poseSequence, b.pose), k.chunk)
  }

  function LogShare(g: Setting, k: Key, c: Cell, log: seq<Batch>, part: Point -> int): int {
    if |log| == 0 then 0
    else
      var b := log[|log| - 1];
      LogShare(g, k, c, log[..|log| - 1], part)
      + Share(g, g.effective(k.session, b.poseSequence, b.pose), k.chunk, c, b.points, part)
  }

  function LogShareAt(g: Setting, k: Key, c: Cell, log: seq<Batch>, axis: Vec -> real): real {
    if |log| == 0 then 0.0
    else
      var b := log[|log| - 1];
      LogShareAt(g, k, c, log[..|log| - 1], axis)
      + ShareAt(g, g.effective(k.session, b.poseSequence, b.pose), k.chunk, c, b.points, axis)
  }

  /** How many batches put points in the chunk, or could see it once an earlier one had. */
  ghost function Chances(g: Setting, k: Key, log: seq<Batch>): nat {
    if |log| == 0 then 0
    else
      var n := |log| - 1;
      Chances(g, k, log[..n])
      + if Puts(g, k, log[n]) || (Sees(g, k, log[n]) && exists j :: 0 <= j < n && Puts(g, k, log[j])) then 1 else 0
  }

  lemma {:induction false} LandsSomewhere(g: Setting, pose: Pose, points: seq<Point>, chunk: Cell)
    ensures Landed(g, pose, points, chunk) != []
            <==> exists i :: 0 <= i < |points| && g.chunkOf(g.world(pose, points[i].at)) == chunk
    decreases |points|
  {
    if |points| > 0 {
      var init := points[..|points| - 1];
      LandsSomewhere(g, pose, init, chunk);
      if i :| 0 <= i < |init| && g.chunkOf(g.world(pose, init[i].at)) == chunk {
        assert points[i] == init[i];
      }
      if i :| 0 <= i < |points| - 1 && g.chunkOf(g.world(pose, points[i].at)) == chunk {
        assert init[i] == points[i];
      }
    }
  }

  /** A chunk exists once a batch put a point in it, and has one opportunity for each batch that had a chance at it. */
  lemma {:induction false} HistoryCounts(g: Setting, k: Key, log: seq<Batch>)
    ensures FoldAll(g, k, log).known <==> exists j :: 0 <= j < |log| && Puts(g, k, log[j])
    ensures FoldAll(g, k, log).opportunities == Chances(g, k, log)
    decreases |log|
  {
    if |log| > 0 {
      var n := |log| - 1;
      var init, b := log[..n], log[n];
      HistoryCounts(g, k, init);
      LandsSomewhere(g, g.effective(k.session, b.poseSequence, b.pose), b.points, k.chunk);
      assert Puts(g, k, b) <==> LandedIn(g, k, b) != [];
      hide Puts, AddPoints, Landed;
      if j :| 0 <= j < n && Puts(g, k, init[j]) { assert log[j] == init[j]; }
      if j :| 0 <= j < n && Puts(g, k, log[j]) { assert log[j] == init[j]; }
    }
  }

  /** The first batch that puts a point in the voxel. */
  ghost predicate Born(g: Setting, k: Key, c: Cell, log: seq<Batch>, j: nat) {
    j < |log| && LogShare(g, k, c, log[..j], One) == 0 < LogShare(g, k, c, log[..j + 1], One)
  }

  /** A voxel no point of the log fell in adds up to nothing. */
  lemma {:induction false} HistoryShares(g: Setting, k: Key, log: seq<Batch>, c: Cell)
    ensures LogShare(g, k, c, log, One) >= 0
    ensures LogShare(g, k, c, log, One) == 0 ==>
              && LogShareAt(g, k, c, log, X) == 0.0 && LogShareAt(g, k, c, log, Y) == 0.0
              && LogShareAt(g, k, c, log, Z) == 0.0 && LogShare(g, k, c, log, Red) == 0
              && LogShare(g, k, c, log, Green) == 0 && LogShare(g, k, c, log, Blue) == 0
              && LogShare(g, k, c, log, Intensity) == 0
    decreases |log|
  {
    if |log| > 0 {
      var b := log[|log| - 1];
      HistoryShares(g, k, log[..|log| - 1], c);
      NothingShared(g, g.effective(k.session, b.poseSequence, b.pose), k.chunk, c, b.points);
    }
  }

  lemma {:induction false} NothingShared(g: Setting, pose: Pose, chunk: Cell, c: Cell, points: seq<Point>)
    ensures Share(g, pose, chunk, c, points, One) >= 0
    ensures Share(g, pose, chunk, c, points, One) == 0 ==>
              && ShareAt(g, pose, chunk, c, points, X) == 0.0 && ShareAt(g, pose, chunk, c, points, Y) == 0.0
              && ShareAt(g, pose, chunk, c, points, Z) == 0.0 && Share(g, pose, chunk, c, points, Red) == 0
              && Share(g, pose, chunk, c, points, Green) == 0 && Share(g, pose, chunk, c, points, Blue) == 0
              && Share(g, pose, chunk, c, points, Intensity) == 0
    decreases |points|
  {
    if |points| > 0 { NothingShared(g, pose, chunk, c, points[..|points| - 1]); }
  }

  /** A voxel is there exactly when some point of the log fell in it, and its sums are those of such points. */
  ghost predicate SumsUp(g: Setting, k: Key, log: seq<Batch>, vox: VoxelMap, c: Cell) {
    && (c in vox.at <==> LogShare(g, k, c, log, One) > 0)
    && (c in vox.at ==>
          && vox.at[c].n == LogShare(g, k, c, log, One)
          && vox.at[c].sum.x == LogShareAt(g, k, c, log, X) && vox.at[c].sum.y == LogShareAt(g, k, c, log, Y)
          && vox.at[c].sum.z == LogShareAt(g, k, c, log, Z)
          && vox.at[c].r == LogShare(g, k, c, log, Red) && vox.at[c].g == LogShare(g, k, c, log, Green)
          && vox.at[c].b == LogShare(g, k, c, log, Blue) && vox.at[c].i == LogShare(g, k, c, log, Intensity))
  }

  lemma SumsOn(g: Setting, k: Key, log: seq<Batch>, was: VoxelMap, now: VoxelMap, o: nat, c: Cell)
    requires |log| > 0 && SumsUp(g, k, log[..|log| - 1], was, c)
    requires var b := log[|log| - 1];
             Gathers(g, g.effective(k.session, b.poseSequence, b.pose), k.chunk, b.points, was, now, o, c)
    ensures SumsUp(g, k, log, now, c)
  {
    var b := log[|log| - 1];
    HistoryShares(g, k, log[..|log| - 1], c);
    NothingShared(g, g.effective(k.session, b.poseSequence, b.pose), k.chunk, c, b.points);
    hide Share, ShareAt;
  }

  /** A chunk's voxels are the plain sums of the log's points, position by position and colour by colour. */
  lemma {:induction false} HistorySums(g: Setting, k: Key, log: seq<Batch>, c: Cell)
    ensures SumsUp(g, k, log, FoldAll(g, k, log).vox, c)
    decreases |log|
  {
    if |log| > 0 {
      var b, before := log[|log| - 1], FoldAll(g, k, log[..|log| - 1]);
      HistorySums(g, k, log[..|log| - 1], c);
      hide SumsUp, Gathers, AddPoints, Landed;
      LandedGathers(g, g.effective(k.session, b.poseSequence, b.pose), k.chunk, b.points, before.vox,
                    FoldAll(g, k, log).opportunities, c);
      SumsOn(g, k, log, before.vox, FoldAll(g, k, log).vox, FoldAll(g, k, log).opportunities, c);
    }
  }

  lemma BornOrCarried(g: Setting, k: Key, log: seq<Batch>, c: Cell)
    requires |log| > 0 && c in FoldAll(g, k, log).vox.at
    ensures var n, at := |log| - 1, FoldAll(g, k, log).vox.at;
            var before := FoldAll(g, k, log[..n]).vox.at;
            if c in before then at[c].o0 == before[c].o0
            else Born(g, k, c, log, n) && at[c].o0 == Chances(g, k, log)
  {
    var n := |log| - 1;
    var b, before := log[n], FoldAll(g, k, log[..n]);
    HistoryCounts(g, k, log);
    AddPointsSums(g.voxelOf, before.vox, LandedIn(g, k, b), FoldAll(g, k, log).opportunities, c);
    hide AddPoints, Landed, Chances, Total, TotalAt, LogShare, LogShareAt;
    assert log[..n + 1] == log;
    HistorySums(g, k, log[..n], c);
    HistorySums(g, k, log, c);
    HistoryShares(g, k, log[..n], c);
  }

  /** A voxel's baseline is the chunk's count when its first point fell. */
  lemma {:induction false} HistoryBirths(g: Setting, k: Key, log: seq<Batch>, c: Cell)
    requires c in FoldAll(g, k, log).vox.at
    ensures exists j: nat :: Born(g, k, c, log, j) && FoldAll(g, k, log).vox.at[c].o0 == Chances(g, k, log[..j + 1])
    decreases |log|
  {
    if |log| > 0 {
      BornOrCarried(g, k, log, c);
      var n := |log| - 1;
      hide Born, Chances, Observe;
      if c in FoldAll(g, k, log[..n]).vox.at {
        HistoryBirths(g, k, log[..n], c);
        var j: nat :| Born(g, k, c, log[..n], j)
                      && FoldAll(g, k, log[..n]).vox.at[c].o0 == Chances(g, k, log[..n][..j + 1]);
        BornBefore(g, k, c, log, n, j);
      } else {
        assert log[..n + 1] == log;
      }
    }
  }

  lemma BornBefore(g: Setting, k: Key, c: Cell, log: seq<Batch>, n: nat, j: nat)
    requires n <= |log| && Born(g, k, c, log[..n], j)
    ensures j < n && log[..n][..j + 1] == log[..j + 1] && Born(g, k, c, log, j)
  {
    assert log[..n][..j] == log[..j] && log[..n][..j + 1] == log[..j + 1];
  }
}
