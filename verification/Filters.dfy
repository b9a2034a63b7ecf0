/** What a served point stands for: which voxels a filter lets through, and the averages sent for them. */
module Filters {
  import opened Voxels
  import opened Lod
  import opened DeltaProtocol
  import opened Sums

  // ---------------------------------------------------------------- the observation filter

  function SinceBirth(opportunities: nat, acc: Acc): nat {
    if opportunities - acc.o0 + 1 > 1 then opportunities - acc.o0 + 1 else 1
  }

  /** A voxel hit often enough stays exactly until its opportunities outgrow its hits by the ratio. */
  lemma StaysUntilOutgrown(filter: Filter, opportunities: nat, acc: Acc)
    requires filter.minRatio > 0.0
    ensures Earns(Some(filter), opportunities, acc)
            <==> acc.n >= filter.minHits && SinceBirth(opportunities, acc) as real <= acc.n as real / filter.minRatio
  {
    var seen, n := SinceBirth(opportunities, acc) as real, acc.n as real;
    Quotient(seen, n, filter.minRatio);
    assert filter.minRatio * seen == seen * filter.minRatio;
  }

  /** So one whose hits stand still is gone once the chunk has had that many more opportunities. */
  lemma StandingStillDrops(filter: Filter, opportunities: nat, acc: Acc)
    requires filter.minRatio > 0.0 && acc.n > 0
    requires (opportunities - acc.o0 + 1) as real > acc.n as real / filter.minRatio
    ensures !Earns(Some(filter), opportunities, acc)
  {
    StaysUntilOutgrown(filter, opportunities, acc);
    assert acc.n as real / filter.minRatio > 0.0;
  }

  /** One hit at every opportunity passes any ratio up to one. */
  lemma HitEveryTimePasses(filter: Filter, opportunities: nat, acc: Acc)
    requires filter.minRatio <= 1.0 && acc.n >= filter.minHits && acc.n >= SinceBirth(opportunities, acc)
    ensures Earns(Some(filter), opportunities, acc)
  {
    var seen := SinceBirth(opportunities, acc) as real;
    MulMono(filter.minRatio, 1.0, seen);
  }

  // ---------------------------------------------------------------- representatives

  /** The nearest whole number to a mean, halves up, within the range of its field. */
  ghost predicate Nearest(v: int, sum: int, n: nat, max: nat) {
    && 0 <= v <= max
    && (0 <= sum <= max * n ==> 2 * n * v <= 2 * sum + n < 2 * n * (v + 1))
    && (sum < 0 ==> v == 0) && (sum > max * n ==> v == max)
  }

  lemma RoundedIsNearest(sum: int, n: nat, max: nat)
    requires n > 0
    ensures Nearest(Clamp(Rounded(sum, n), max), sum, n, max)
  {
    var v := Rounded(sum, n);
    RoundedBounds(sum, n, v);
    Grow(2 * n, max + 1, v);
    Grow(2 * n, v + 1, 0);
    Grow(2 * n, v + 1, max);
    Grow(2 * n, 1, v);
    assert 2 * n * (max + 1) == 2 * (max * n) + 2 * n && 2 * n * max == 2 * (max * n);
  }

  lemma RoundedBounds(sum: int, n: nat, v: int)
    requires n > 0 && v == (2 * sum + n) / (2 * n)
    ensures 2 * n * v <= 2 * sum + n < 2 * n * (v + 1)
  {
    assert 2 * sum + n == (2 * n) * v + (2 * sum + n) % (2 * n);
    assert 2 * n * (v + 1) == 2 * n * v + 2 * n;
  }

  lemma Grow(k: nat, a: int, b: int)
    ensures a <= b ==> k * a <= k * b
  {
  }

  /** A point averages sums over `n` samples: the mean position, and each colour to the nearest value. */
  ghost predicate Averages(p: Point, n: nat, x: real, y: real, z: real, r: int, g: int, b: int, i: int) {
    && n > 0 && p.at == Vec(x / n as real, y / n as real, z / n as real)
    && Nearest(p.r, r, n, 255) && Nearest(p.g, g, n, 255) && Nearest(p.b, b, n, 255) && Nearest(p.i, i, n, 65535)
  }

  /** The point sent for a voxel averages the voxel's own sums. */
  lemma RepAverages(acc: Acc)
    requires acc.n > 0
    ensures Averages(Rep(acc), acc.n, acc.sum.x, acc.sum.y, acc.sum.z, acc.r, acc.g, acc.b, acc.i)
  {
    RoundedIsNearest(acc.r, acc.n, 255);
    RoundedIsNearest(acc.g, acc.n, 255);
    RoundedIsNearest(acc.b, acc.n, 255);
    RoundedIsNearest(acc.i, acc.n, 65535);
  }

  // ---------------------------------------------------------------- levels

  /** The finest level has the fusing edge, and each coarser one twice the edge of the next. */
  lemma LevelsDouble(ladder: Ladder, level: nat)
    requires WellFormed(ladder)
    ensures level + 1 >= ladder.numLevels ==> LevelVoxelMeters(ladder, level) == ladder.fuseVoxelMeters
    ensures level + 1 < ladder.numLevels ==>
              LevelVoxelMeters(ladder, level) == 2.0 * LevelVoxelMeters(ladder, level + 1)
  {
    if level + 1 < ladder.numLevels {
      var j := Doublings(ladder, level + 1);
      assert Doublings(ladder, level) == j + 1;
      assert Pow2(j + 1) == 2 * Pow2(j);
      assert ladder.fuseVoxelMeters * (2.0 * Pow2(j) as real) == 2.0 * (ladder.fuseVoxelMeters * Pow2(j) as real);
    }
  }

  // ---------------------------------------------------------------- coarser levels

  /** The points of the voxels that earn their place, in order. */
  ghost function Earning(filter: Option<Filter>, f: Fine): seq<Point>
    requires Sound(f.vox)
  {
    ChosenRises(filter, f, 0, |f.vox.keys|);
    var chosen := Chosen(filter, f, 0, |f.vox.keys|);
    seq(|chosen|, i requires 0 <= i < |chosen| => Rep(Nth(f.vox, chosen[i])))
  }

  lemma EarningPasses(filter: Option<Filter>, f: Fine)
    requires Sound(f.vox)
    ensures Passing(Samples(f.vox), Flags(filter, f), 0, |f.vox.keys|) == Earning(filter, f)
  {
    hide Rep, Earns, Passes;
    PassingIsChosen(filter, f, 0, |f.vox.keys|);
  }

  /** A cell's average so far is the sums over the points given that lie in it. */
  ghost predicate Summed(at: map<Cell, Bin>, gridOf: Vec -> Cell, c: Cell, ps: seq<Point>) {
    && (c in at <==> Total(gridOf, c, ps, One) > 0)
    && (c in at ==>
          && at[c].acc.n == Total(gridOf, c, ps, One)
          && at[c].acc.sum == Vec(TotalAt(gridOf, c, ps, X), TotalAt(gridOf, c, ps, Y), TotalAt(gridOf, c, ps, Z))
          && at[c].acc.r == Total(gridOf, c, ps, Red) && at[c].acc.g == Total(gridOf, c, ps, Green)
          && at[c].acc.b == Total(gridOf, c, ps, Blue) && at[c].acc.i == Total(gridOf, c, ps, Intensity))
  }

  lemma OneSample(gridOf: Vec -> Cell, m: BinMap, p: Point, i: nat, c: Cell, ps: seq<Point>)
    requires Summed(m.at, gridOf, c, ps)
    ensures Summed(AddSample(gridOf, m, p, i).at, gridOf, c, ps + [p])
  {
    NothingTotal(gridOf, c, ps);
    assert (ps + [p])[..|ps|] == ps;
  }

  lemma {:induction false} BinsSum(gridOf: Vec -> Cell, samples: seq<Point>, flags: seq<bool>, n: nat, c: Cell)
    requires n <= |samples| == |flags|
    ensures Summed(Bins(gridOf, samples, flags, n).at, gridOf, c, Passing(samples, flags, 0, n))
  {
    if n > 0 {
      BinsSum(gridOf, samples, flags, n - 1, c);
      hide Summed, AddSample;
      var ps := Passing(samples, flags, 0, n - 1);
      if flags[n - 1] {
        OneSample(gridOf, Bins(gridOf, samples, flags, n - 1), samples[n - 1], n - 1, c, ps);
      } else {
        assert Passing(samples, flags, 0, n) == ps;
      }
    }
  }

  lemma NothingTotal(gridOf: Vec -> Cell, c: Cell, ps: seq<Point>)
    ensures Total(gridOf, c, ps, One) >= 0
    ensures Total(gridOf, c, ps, One) == 0 ==>
              && TotalAt(gridOf, c, ps, X) == 0.0 && TotalAt(gridOf, c, ps, Y) == 0.0
              && TotalAt(gridOf, c, ps, Z) == 0.0
              && Total(gridOf, c, ps, Red) == 0 && Total(gridOf, c, ps, Green) == 0 && Total(gridOf, c, ps, Blue) == 0
              && Total(gridOf, c, ps, Intensity) == 0
  {
    HitsArePlaced(gridOf, c, ps, X);
    HitsArePlaced(gridOf, c, ps, Y);
    HitsArePlaced(gridOf, c, ps, Z);
    HitsAreCounted(gridOf, c, ps, Red);
    HitsAreCounted(gridOf, c, ps, Green);
    HitsAreCounted(gridOf, c, ps, Blue);
    HitsAreCounted(gridOf, c, ps, Intensity);
  }

  /** Serving everything serves each cell's average, in the order the cells appeared. */
  lemma {:induction false} AllReps(m: BinMap, n: nat)
    requires Binned(m) && n <= |m.keys|
    ensures |NewReps(m, 0, n)| == n
    ensures forall i :: 0 <= i < n ==> m.keys[i] in m.at && NewReps(m, 0, n)[i] == Rep(m.at[m.keys[i]].acc)
  {
    hide Rep;
    if n > 0 {
      AllReps(m, n - 1);
      assert m.keys[n - 1] in m.keys;
    }
  }

  /** The sums of the passing points in a cell, averaged. */
  ghost predicate AveragesCell(p: Point, gridOf: Vec -> Cell, c: Cell, ps: seq<Point>) {
    Total(gridOf, c, ps, One) >= 0 &&
    Averages(p, Total(gridOf, c, ps, One), TotalAt(gridOf, c, ps, X), TotalAt(gridOf, c, ps, Y),
             TotalAt(gridOf, c, ps, Z), Total(gridOf, c, ps, Red), Total(gridOf, c, ps, Green),
             Total(gridOf, c, ps, Blue), Total(gridOf, c, ps, Intensity))
  }

  /** The cells holding some of the points, each once, and for each a point averaging those in it. */
  ghost predicate ServesCells(points: seq<Point>, gridOf: Vec -> Cell, cells: seq<Cell>, ps: seq<Point>) {
    && |points| == |cells| && Once(cells)
    && (forall c :: c in cells <==> exists p :: p in ps && gridOf(p.at) == c)
    && (forall i :: 0 <= i < |cells| ==> AveragesCell(points[i], gridOf, cells[i], ps))
  }

  /**
   * At a coarser level, the cells served are exactly those holding a voxel that earns its place, each
   * once, and the point of each averages the points of those voxels in it, each counted once.
   */
  lemma CoarseServes(ladder: Ladder, f: Fine, level: nat, filter: Option<Filter>) returns (cells: seq<Cell>)
    requires WellFormed(ladder) && level + 1 < ladder.numLevels && Sound(f.vox)
    ensures var d := Derived(ladder, f, level, filter, 0);
            && d.total == |cells|
            && ServesCells(d.points, Grid(LevelVoxelMeters(ladder, level)), cells, Earning(filter, f))
  {
    hide ServesCells, Earning, Bins, NewReps, Passing;
    var gridOf, n := Grid(LevelVoxelMeters(ladder, level)), |f.vox.keys|;
    var samples, flags := Samples(f.vox), Flags(filter, f);
    EarningPasses(filter, f);
    BinsServe(gridOf, samples, flags, n);
    var m := Bins(gridOf, samples, flags, n);
    cells := m.keys;
    if n == 0 { NoBins(gridOf, samples, flags); }
  }

  lemma NoBins(gridOf: Vec -> Cell, samples: seq<Point>, flags: seq<bool>)
    requires |samples| == |flags| == 0
    ensures Bins(gridOf, samples, flags, 0).keys == [] && Passing(samples, flags, 0, 0) == []
    ensures ServesCells([], gridOf, [], [])
  {
  }

  lemma BinsServe(gridOf: Vec -> Cell, samples: seq<Point>, flags: seq<bool>, n: nat)
    requires n <= |samples| == |flags|
    ensures var m := Bins(gridOf, samples, flags, n);
            Binned(m) && ServesCells(NewReps(m, 0, |m.keys|), gridOf, m.keys, Passing(samples, flags, 0, n))
  {
    BinsAreBinned(gridOf, samples, flags, n);
    hide Bins, NewReps, Rep, Passing, Total, AveragesCell;
    var m, ps := Bins(gridOf, samples, flags, n), Passing(samples, flags, 0, n);
    AllReps(m, |m.keys|);
    forall c ensures c in m.keys <==> exists p :: p in ps && gridOf(p.at) == c {
      BinsSum(gridOf, samples, flags, n, c);
      SomeHit(gridOf, c, ps);
    }
    hide Summed;
    forall i | 0 <= i < |m.keys| ensures AveragesCell(NewReps(m, 0, |m.keys|)[i], gridOf, m.keys[i], ps) {
      BinsSum(gridOf, samples, flags, n, m.keys[i]);
      SummedAverages(m, gridOf, m.keys[i], ps);
    }
  }

  lemma SummedAverages(m: BinMap, gridOf: Vec -> Cell, c: Cell, ps: seq<Point>)
    requires Binned(m) && c in m.at && Summed(m.at, gridOf, c, ps)
    ensures AveragesCell(Rep(m.at[c].acc), gridOf, c, ps)
  {
    hide Rep, Averages;
    RepAverages(m.at[c].acc);
  }

  lemma {:induction false} SomeHit(gridOf: Vec -> Cell, c: Cell, ps: seq<Point>)
    ensures Total(gridOf, c, ps, One) >= 0
    ensures Total(gridOf, c, ps, One) > 0 <==> exists p :: p in ps && gridOf(p.at) == c
    decreases |ps|
  {
    if |ps| > 0 {
      SomeHit(gridOf, c, ps[..|ps| - 1]);
      assert ps == ps[..|ps| - 1] + [ps[|ps| - 1]];
    }
  }
}
