/**
 * Why appending deltas reproduces the full derivation at every level: fine voxels keep their order
 * and their grid cell, and every coarser grid nests exactly over the fine one.
 */
module DeltaProtocol {
  import opened Voxels
  import opened Lod

  // ---------------------------------------------------------------- nesting grids

  /** The cell a fine cell belongs to after `j` doublings of the edge. */
  function Coarser(key: Cell, j: nat): Cell {
    Cell(key.x / Pow2(j), key.y / Pow2(j), key.z / Pow2(j))
  }

  lemma Regroup(a: real, b: real, c: real)
    ensures (a * b) * c == a * (c * b)
  {
  }

  lemma DivBounds(d: int, p: nat)
    requires p > 0
    ensures (d / p) * p <= d && d + 1 <= (d / p + 1) * p
  {
  }

  /** An interval of fine cells inside an interval of coarse ones. */
  lemma IntervalNests(x: real, size: real, lo: real, hi: real, c: real, c': real, p: real)
    requires size > 0.0 && c * p <= lo && hi <= c' * p && lo * size <= x < hi * size
    ensures c * (size * p) <= x < c' * (size * p)
  {
    MulMono(c * p, lo, size);
    MulMono(hi, c' * p, size);
    Regroup(c, p, size);
    Regroup(c', p, size);
  }

  lemma EdgeIsPositive(size: real, p: nat)
    requires size > 0.0 && p > 0
    ensures size * p as real > 0.0
  {
  }

  lemma NestsAlong(x: real, size: real, p: nat)
    requires size > 0.0 && p > 0
    ensures size * p as real > 0.0
    ensures FloorDiv(x, size * p as real) == FloorDiv(x, size) / p
  {
    var d := FloorDiv(x, size);
    var c := d / p;
    hide FloorDiv;
    EdgeIsPositive(size, p);
    FloorDivIs(x, size, d);
    FloorDivIs(x, size * p as real, c);
    DivBounds(d, p);
    CastProduct(c, p);
    CastProduct(c + 1, p);
    IntervalNests(x, size, d as real, (d + 1) as real, c as real, (c + 1) as real, p as real);
  }

  lemma CastProduct(c: int, p: nat)
    ensures (c * p) as real == c as real * p as real
  {
  }

  /** A point's cell on a coarser grid is fixed by its cell on the fine grid. */
  lemma GridNests(at: Vec, size: real, j: nat, edge: real)
    requires size > 0.0 && edge > 0.0 && edge == size * Pow2(j) as real
    ensures Grid(edge)(at) == Coarser(Grid(size)(at), j)
  {
    CellNests(at, size, Pow2(j), edge);
    hide CellOf, Pow2;
  }

  lemma CellNests(at: Vec, size: real, p: nat, edge: real)
    requires size > 0.0 && p > 0 && edge == size * p as real && edge > 0.0
    ensures var c := CellOf(at, size); CellOf(at, edge) == Cell(c.x / p, c.y / p, c.z / p)
  {
    hide FloorDiv;
    NestsAlong(at.x, size, p);
    NestsAlong(at.y, size, p);
    NestsAlong(at.z, size, p);
  }

  // ---------------------------------------------------------------- the cells of a level

  /** The distinct coarse cells of the passing voxels among the first `n`, in order of appearance. */
  function Level(keys: seq<Cell>, flags: seq<bool>, j: nat, n: nat): seq<Cell>
    requires n <= |keys| == |flags|
  {
    if n == 0 then []
    else
      var before := Level(keys, flags, j, n - 1);
      var c := Coarser(keys[n - 1], j);
      if flags[n - 1] && c !in before then before + [c] else before
  }

  function CellsOf(points: seq<Point>, gridOf: Vec -> Cell): seq<Cell> {
    seq(|points|, i requires 0 <= i < |points| => gridOf(points[i].at))
  }

  ghost predicate Once(cells: seq<Cell>) {
    forall i, j :: 0 <= i < j < |cells| ==> cells[i] != cells[j]
  }

  lemma {:induction false} LevelGrows(keys: seq<Cell>, flags: seq<bool>, j: nat, m: nat, n: nat)
    requires m <= n <= |keys| == |flags|
    ensures Level(keys, flags, j, m) <= Level(keys, flags, j, n)
    ensures Once(Level(keys, flags, j, n))
    decreases n
  {
    if n > 0 { LevelGrows(keys, flags, j, if m < n then m else n - 1, n - 1); }
  }

  /** A level depends only on the part of the chunk it looks at. */
  lemma {:induction false} LevelSame(keys: seq<Cell>, flags: seq<bool>, keys': seq<Cell>, flags': seq<bool>, j: nat,
                                     n: nat)
    requires n <= |keys| == |flags| && n <= |keys'| == |flags'|
    requires forall i :: 0 <= i < n ==> keys[i] == keys'[i] && flags[i] == flags'[i]
    ensures Level(keys, flags, j, n) == Level(keys', flags', j, n)
  {
    if n > 0 { LevelSame(keys, flags, keys', flags', j, n - 1); }
  }

  /** Letting more voxels pass only adds cells. */
  lemma {:induction false} LevelMonotone(keys: seq<Cell>, flags: seq<bool>, keys': seq<Cell>, flags': seq<bool>, j: nat,
                                         n: nat)
    requires n <= |keys| == |flags| && n <= |keys'| == |flags'|
    requires forall i :: 0 <= i < n ==> keys[i] == keys'[i] && (flags[i] ==> flags'[i])
    ensures forall c :: c in Level(keys, flags, j, n) ==> c in Level(keys', flags', j, n)
  {
    if n > 0 { LevelMonotone(keys, flags, keys', flags', j, n - 1); }
  }

  lemma {:induction false} LevelBounded(keys: seq<Cell>, flags: seq<bool>, j: nat, n: nat)
    requires n <= |keys| == |flags|
    ensures |Level(keys, flags, j, n)| <= n
  {
    if n > 0 { LevelBounded(keys, flags, j, n - 1); }
  }

  // ---------------------------------------------------------------- what a derivation contains

  /** Every sample lies in the coarse cell of its fine voxel. */
  ghost predicate Sited(gridOf: Vec -> Cell, samples: seq<Point>, keys: seq<Cell>, j: nat) {
    |samples| == |keys| && forall i :: 0 <= i < |keys| ==> gridOf(samples[i].at) == Coarser(keys[i], j)
  }

  lemma SamplesSited(size: real, vm: VoxelMap, j: nat, edge: real)
    requires size > 0.0 && WellKeyed(Grid(size), vm) && edge > 0.0 && edge == size * Pow2(j) as real
    ensures Sound(vm) && Sited(Grid(edge), Samples(vm), vm.keys, j)
  {
    assert forall k :: k in vm.at ==> Fits(Grid(size), vm.at[k], k);
    forall i | 0 <= i < |vm.keys|
      ensures Grid(edge)(Samples(vm)[i].at) == Coarser(vm.keys[i], j)
    {
      assert vm.keys[i] in vm.at && Fits(Grid(size), vm.at[vm.keys[i]], vm.keys[i]);
      GridNests(Samples(vm)[i].at, size, j, edge);
    }
  }

  ghost predicate BinOf(gridOf: Vec -> Cell, keys: seq<Cell>, flags: seq<bool>, j: nat, n: nat, c: Cell, bin: Bin)
    requires n <= |keys| == |flags|
  {
    && Fits(gridOf, bin.acc, c) && bin.first < n
    && c !in Level(keys, flags, j, bin.first) && c in Level(keys, flags, j, bin.first + 1)
  }

  ghost predicate BinsOf(gridOf: Vec -> Cell, m: BinMap, keys: seq<Cell>, flags: seq<bool>, j: nat, n: nat)
    requires n <= |keys| == |flags|
  {
    Binned(m) && m.keys == Level(keys, flags, j, n) && forall c :: c in m.at ==>
          BinOf(gridOf, keys, flags, j, n, c, m.at[c])
  }

  lemma BinsOneMore(gridOf: Vec -> Cell, m: BinMap, p: Point, keys: seq<Cell>, flags: seq<bool>, j: nat, n: nat)
    requires Stable(gridOf) && n < |keys| == |flags| && BinsOf(gridOf, m, keys, flags, j, n)
    requires flags[n] && gridOf(p.at) == Coarser(keys[n], j)
    ensures BinsOf(gridOf, AddSample(gridOf, m, p, n), keys, flags, j, n + 1)
  {
    var after, c := AddSample(gridOf, m, p, n), gridOf(p.at);
    assert Fits(gridOf, AddTo(Fresh(0), p), c);
    assert c in m.at ==> BinOf(gridOf, keys, flags, j, n, c, m.at[c]) && Fits(gridOf, AddTo(m.at[c].acc, p), c);
    hide Fits, Coarser;
    forall d | d in after.at
      ensures BinOf(gridOf, keys, flags, j, n + 1, d, after.at[d])
    {
      assert d != c ==> BinOf(gridOf, keys, flags, j, n, d, m.at[d]);
    }
  }

  /** Re-binning gives the level's cells, each averaged inside itself and stamped with its first voxel. */
  lemma {:induction false} BinsAreLevel(gridOf: Vec -> Cell, samples: seq<Point>, keys: seq<Cell>, flags: seq<bool>,
                                        j: nat, n: nat)
    requires Stable(gridOf) && Sited(gridOf, samples, keys, j) && n <= |keys| == |flags|
    ensures BinsOf(gridOf, Bins(gridOf, samples, flags, n), keys, flags, j, n)
  {
    hide Stable, BinOf;
    if n > 0 {
      BinsAreLevel(gridOf, samples, keys, flags, j, n - 1);
      if flags[n - 1] {
        BinsOneMore(gridOf, Bins(gridOf, samples, flags, n - 1), samples[n - 1], keys, flags, j, n - 1);
      } else {
        BinsLater(gridOf, Bins(gridOf, samples, flags, n - 1), keys, flags, j, n - 1);
      }
    }
  }

  lemma BinsLater(gridOf: Vec -> Cell, m: BinMap, keys: seq<Cell>, flags: seq<bool>, j: nat, n: nat)
    requires n < |keys| == |flags| && BinsOf(gridOf, m, keys, flags, j, n) && !flags[n]
    ensures BinsOf(gridOf, m, keys, flags, j, n + 1)
  {
    forall d | d in m.at ensures BinOf(gridOf, keys, flags, j, n + 1, d, m.at[d]) {
      assert BinOf(gridOf, keys, flags, j, n, d, m.at[d]);
    }
  }

  /** A cell is new since a version exactly when its first voxel is. */
  lemma NewSince(gridOf: Vec -> Cell, keys: seq<Cell>, flags: seq<bool>, j: nat, n: nat, since: nat, c: Cell, bin: Bin)
    requires since <= n <= |keys| == |flags| && BinOf(gridOf, keys, flags, j, n, c, bin)
    ensures bin.first >= since <==> c !in Level(keys, flags, j, since)
  {
    if bin.first >= since {
      LevelGrows(keys, flags, j, since, bin.first);
    } else {
      LevelGrows(keys, flags, j, bin.first + 1, since);
    }
  }

  /** Position in the level tells whether a cell was there before. */
  lemma HeldIsPrefix(keys: seq<Cell>, flags: seq<bool>, j: nat, n: nat, since: nat, i: nat)
    requires since <= n <= |keys| == |flags| && i < |Level(keys, flags, j, n)|
    ensures |Level(keys, flags, j, since)| <= |Level(keys, flags, j, n)|
    ensures Level(keys, flags, j, n)[i] in Level(keys, flags, j, since) <==> i < |Level(keys, flags, j, since)|
  {
    LevelGrows(keys, flags, j, since, n);
    var full, held := Level(keys, flags, j, n), Level(keys, flags, j, since);
    hide Level;
    assert held <= full;
    assert i < |held| ==> held[i] == full[i] && held[i] in held;
    if full[i] in held {
      var h :| 0 <= h < |held| && held[h] == full[i];
      assert full[h] == full[i];
    }
  }

  lemma {:induction false} NewRepsAreTail(gridOf: Vec -> Cell, m: BinMap, keys: seq<Cell>, flags: seq<bool>, j: nat,
                                          n: nat, since: nat, c: nat)
    requires since <= n <= |keys| == |flags| && BinsOf(gridOf, m, keys, flags, j, n) && c <= |m.keys|
    ensures |Level(keys, flags, j, since)| <= |m.keys|
    ensures var from := |Level(keys, flags, j, since)|;
            CellsOf(NewReps(m, since, c), gridOf) == if c <= from then [] else m.keys[from..c]
    decreases c
  {
    hide Level, BinsOf, BinOf, Rep, CellsOf, Binned, Once, NewReps;
    BinsSay(gridOf, m, keys, flags, j, n);
    LevelGrows(keys, flags, j, since, n);
    if c == 0 {
      NewRepsNone(m, since);
      CellsOfNone(gridOf);
    } else {
      NewRepsAreTail(gridOf, m, keys, flags, j, n, since, c - 1);
      NextRep(gridOf, m, keys, flags, j, n, since, c);
      NewRepsStep(m, since, c);
      var before, bin, next := NewReps(m, since, c - 1), m.at[m.keys[c - 1]], m.keys[c - 1];
      if bin.first >= since {
        CellsOfOneMore(before, Rep(bin.acc), gridOf);
        assert m.keys[|Level(keys, flags, j, since)|..c] == m.keys[|Level(keys, flags, j, since)|..c - 1] + [next];
      }
    }
  }

  lemma BinsSay(gridOf: Vec -> Cell, m: BinMap, keys: seq<Cell>, flags: seq<bool>, j: nat, n: nat)
    requires n <= |keys| == |flags| && BinsOf(gridOf, m, keys, flags, j, n)
    ensures m.keys == Level(keys, flags, j, n) && Binned(m)
  {
  }

  lemma NewRepsNone(m: BinMap, since: nat)
    requires Binned(m)
    ensures NewReps(m, since, 0) == []
  {
  }

  lemma NewRepsStep(m: BinMap, since: nat, c: nat)
    requires Binned(m) && 0 < c <= |m.keys|
    ensures m.keys[c - 1] in m.at && m.at[m.keys[c - 1]].acc.n > 0
    ensures var bin, before := m.at[m.keys[c - 1]], NewReps(m, since, c - 1);
            NewReps(m, since, c) == if bin.first >= since then before + [Rep(bin.acc)] else before
  {
    assert m.keys[c - 1] in m.keys;
  }

  lemma CellsOfNone(gridOf: Vec -> Cell)
    ensures CellsOf([], gridOf) == []
  {
  }

  lemma CellsOfOneMore(points: seq<Point>, p: Point, gridOf: Vec -> Cell)
    ensures CellsOf(points + [p], gridOf) == CellsOf(points, gridOf) + [gridOf(p.at)]
  {
  }

  /** The next cell's average lies in it, and is shipped when the cell is not among those held. */
  lemma NextRep(gridOf: Vec -> Cell, m: BinMap, keys: seq<Cell>, flags: seq<bool>, j: nat, n: nat, since: nat, c: nat)
    requires since <= n <= |keys| == |flags| && BinsOf(gridOf, m, keys, flags, j, n) && 0 < c <= |m.keys|
    ensures m.keys[c - 1] in m.at
    ensures var bin := m.at[m.keys[c - 1]];
            && bin.acc.n > 0 && gridOf(Rep(bin.acc).at) == m.keys[c - 1]
            && (bin.first >= since <==> c - 1 >= |Level(keys, flags, j, since)|)
  {
    hide Level;
    BinsSay(gridOf, m, keys, flags, j, n);
    var key := m.keys[c - 1];
    assert key in m.keys;
    var bin := m.at[key];
    assert BinOf(gridOf, keys, flags, j, n, key, bin);
    NewSince(gridOf, keys, flags, j, n, since, key, bin);
    HeldIsPrefix(keys, flags, j, n, since, c - 1);
  }

  lemma CellsOfJoin(a: seq<Point>, b: seq<Point>, gridOf: Vec -> Cell)
    ensures CellsOf(a + b, gridOf) == CellsOf(a, gridOf) + CellsOf(b, gridOf)
  {
  }

  /** One more voxel is one more cell of the finest level, when it passes. */
  lemma {:induction false} FinestGrows(keys: seq<Cell>, flags: seq<bool>, n: nat)
    requires Once(keys) && n <= |keys| == |flags|
    ensures forall c :: c in Level(keys, flags, 0, n) ==> c in keys[..n]
    ensures n > 0 ==>
              var before := Level(keys, flags, 0, n - 1);
              Level(keys, flags, 0, n) == if flags[n - 1] then before + [keys[n - 1]] else before
    decreases n
  {
    if n > 0 {
      FinestGrows(keys, flags, n - 1);
      assert Coarser(keys[n - 1], 0) == keys[n - 1];
      assert keys[..n] == keys[..n - 1] + [keys[n - 1]] && keys[n - 1] !in keys[..n - 1];
    }
  }

  /** What passes from a version on lies in the cells that were not there at it. */
  ghost predicate IsTail(gridOf: Vec -> Cell, points: seq<Point>, held: seq<Cell>, level: seq<Cell>) {
    |held| <= |level| && CellsOf(points, gridOf) == level[|held|..]
  }

  lemma TailGrows(gridOf: Vec -> Cell, points: seq<Point>, held: seq<Cell>, level: seq<Cell>, p: Point)
    requires IsTail(gridOf, points, held, level)
    ensures IsTail(gridOf, points + [p], held, level + [gridOf(p.at)])
  {
    CellsOfOneMore(points, p, gridOf);
    SuffixGrows(level, gridOf(p.at), |held|);
  }

  lemma TailIsEmpty(gridOf: Vec -> Cell, level: seq<Cell>)
    ensures IsTail(gridOf, [], level, level)
  {
    CellsOfNone(gridOf);
  }

  lemma FinestSite(gridOf: Vec -> Cell, samples: seq<Point>, keys: seq<Cell>, i: nat)
    requires Sited(gridOf, samples, keys, 0) && i < |keys|
    ensures gridOf(samples[i].at) == keys[i]
  {
    assert Coarser(keys[i], 0) == keys[i];
  }

  /** At the finest level the passing voxels are the cells. */
  lemma {:induction false} PassingIsTail(gridOf: Vec -> Cell, samples: seq<Point>, keys: seq<Cell>, flags: seq<bool>,
                                         since: nat, n: nat)
    requires Sited(gridOf, samples, keys, 0) && Once(keys) && n <= |keys| == |flags| && since <= |keys|
    ensures IsTail(gridOf, Passing(samples, flags, since, n), Level(keys, flags, 0, if since < n then since else n),
                   Level(keys, flags, 0, n))
    decreases n
  {
    hide IsTail, Level, Passing, Once, CellsOf;
    if n > since {
      PassingIsTail(gridOf, samples, keys, flags, since, n - 1);
      FinestGrows(keys, flags, n);
      FinestSite(gridOf, samples, keys, n - 1);
      NextPassing(samples, flags, since, n);
      hide Sited;
      if flags[n - 1] {
        TailGrows(gridOf, Passing(samples, flags, since, n - 1), Level(keys, flags, 0, since),
                  Level(keys, flags, 0, n - 1), samples[n - 1]);
      }
    } else {
      NonePassing(samples, flags, since, n);
      hide Sited;
      TailIsEmpty(gridOf, Level(keys, flags, 0, n));
    }
  }

  lemma SuffixGrows<T>(s: seq<T>, x: T, at: nat)
    requires at <= |s|
    ensures (s + [x])[at..] == s[at..] + [x]
  {
  }

  lemma {:induction false} NonePassing(samples: seq<Point>, flags: seq<bool>, since: nat, n: nat)
    requires n <= |samples| == |flags| && n <= since
    ensures Passing(samples, flags, since, n) == []
  {
    if n > 0 { NonePassing(samples, flags, since, n - 1); }
  }

  function Until(since: nat, n: nat): nat {
    if since < n then since else n
  }

  /** A derivation holds the level's cells that were not there at the given version, in order. */
  lemma DerivedCells(ladder: Ladder, f: Fine, level: nat, filter: Option<Filter>, since: nat)
    requires WellFormed(ladder) && WellKeyed(Grid(ladder.fuseVoxelMeters), f.vox)
    ensures Sound(f.vox)
    ensures var d, n, j := Derived(ladder, f, level, filter, since), |f.vox.keys|, Doublings(ladder, level);
            var full, held := Level(f.vox.keys, Flags(filter, f), j, n),
                Level(f.vox.keys, Flags(filter, f), j, Until(since, n));
            && d.version == n && d.total == |full| && |held| <= |full|
            && CellsOf(d.points, Grid(LevelVoxelMeters(ladder, level))) == full[|held|..]
  {
    hide Level, Sited, Samples, Flags, WellKeyed, Bins, NewReps, Passing, Binned, Pow2;
    var n, j, size := |f.vox.keys|, Doublings(ladder, level), LevelVoxelMeters(ladder, level);
    assert size == ladder.fuseVoxelMeters * Pow2(j) as real;
    hide LevelVoxelMeters;
    SamplesSited(ladder.fuseVoxelMeters, f.vox, j, size);
    var samples, keys, flags := Samples(f.vox), f.vox.keys, Flags(filter, f);
    var s := Until(since, n);
    if n == 0 {
      LevelBounded(keys, flags, j, n);
    } else if level + 1 >= ladder.numLevels {
      FinestCells(size, samples, keys, flags, since);
    } else {
      CoarseCells(size, samples, keys, flags, j, since);
    }
  }

  lemma FinestCells(size: real, samples: seq<Point>, keys: seq<Cell>, flags: seq<bool>, since: nat)
    requires size > 0.0 && Sited(Grid(size), samples, keys, 0) && Once(keys) && |keys| == |flags|
    ensures var n := |keys|;
            var full, held := Level(keys, flags, 0, n), Level(keys, flags, 0, Until(since, n));
            && |held| <= |full| == |Passing(samples, flags, 0, n)|
            && CellsOf(Passing(samples, flags, since, n), Grid(size)) == full[|held|..]
  {
    var n := |keys|;
    PassingIsTail(Grid(size), samples, keys, flags, Until(since, n), n);
    PassingIsTail(Grid(size), samples, keys, flags, 0, n);
    PassingSame(samples, flags, since, n);
    assert |CellsOf(Passing(samples, flags, 0, n), Grid(size))| == |Passing(samples, flags, 0, n)|;
  }

  lemma CoarseCells(size: real, samples: seq<Point>, keys: seq<Cell>, flags: seq<bool>, j: nat, since: nat)
    requires size > 0.0 && Sited(Grid(size), samples, keys, j) && |keys| == |flags|
    ensures var n := |keys|;
            var m := Bins(Grid(size), samples, flags, n);
            var full, held := Level(keys, flags, j, n), Level(keys, flags, j, Until(since, n));
            && Binned(m) && |held| <= |full| == |m.keys|
            && CellsOf(NewReps(m, since, |m.keys|), Grid(size)) == full[|held|..]
  {
    var n := |keys|;
    GridIsStable(size);
    BinsAreLevel(Grid(size), samples, keys, flags, j, n);
    var m := Bins(Grid(size), samples, flags, n);
    NewRepsAreTail(Grid(size), m, keys, flags, j, n, Until(since, n), |m.keys|);
    forall d | d in m.at ensures m.at[d].first < n { assert BinOf(Grid(size), keys, flags, j, n, d, m.at[d]); }
    NewRepsSame(m, since, Until(since, n), n, |m.keys|);
  }

  lemma {:induction false} PassingSame(samples: seq<Point>, flags: seq<bool>, since: nat, n: nat)
    requires n <= |samples| == |flags|
    ensures Passing(samples, flags, since, n) == Passing(samples, flags, Until(since, |samples|), n)
  {
    if n > 0 { PassingSame(samples, flags, since, n - 1); }
  }

  lemma {:induction false} NewRepsSame(m: BinMap, since: nat, s: nat, n: nat, c: nat)
    requires Binned(m) && c <= |m.keys| && s == Until(since, n) && forall d :: d in m.at ==> m.at[d].first < n
    ensures NewReps(m, since, c) == NewReps(m, s, c)
  {
    if c > 0 {
      NewRepsSame(m, since, s, n, c - 1);
      assert m.keys[c - 1] in m.keys;
    }
  }

  // ---------------------------------------------------------------- growth

  /** Between rebuilds a chunk only gains voxels at the end, and its voxels only gain hits. */
  ghost predicate Grows(f: Fine, f': Fine) {
    && f.vox.keys <= f'.vox.keys && f.opportunities <= f'.opportunities
    && forall k :: k in f.vox.at ==>
          k in f'.vox.at && f.vox.at[k].n <= f'.vox.at[k].n && f.vox.at[k].o0 == f'.vox.at[k].o0
  }

  function AllPass(n: nat): seq<bool> {
    seq(n, i => true)
  }

  /** The cells of a level when no filter is active. */
  function Unfiltered(keys: seq<Cell>, j: nat, n: nat): seq<Cell>
    requires n <= |keys|
  {
    Level(keys, AllPass(|keys|), j, n)
  }

  lemma UnfilteredGrows(keys: seq<Cell>, keys': seq<Cell>, j: nat, n: nat)
    requires keys <= keys' && n <= |keys|
    ensures Unfiltered(keys, j, n) == Unfiltered(keys', j, n)
  {
    LevelSame(keys, AllPass(|keys|), keys', AllPass(|keys'|), j, n);
  }

  /** Without a filter, a derivation since `v` is the rest of the level after the cells at version `v`. */
  lemma UnfilteredCells(ladder: Ladder, f: Fine, level: nat, filter: Option<Filter>, v: nat)
    requires WellFormed(ladder) && WellKeyed(Grid(ladder.fuseVoxelMeters), f.vox) && !Filtering(filter)
             && v <= |f.vox.keys|
    ensures Sound(f.vox)
    ensures var d, n, j := Derived(ladder, f, level, filter, v), |f.vox.keys|, Doublings(ladder, level);
            && d.version == n
            && Unfiltered(f.vox.keys, j, v) <= Unfiltered(f.vox.keys, j, n) && |Unfiltered(f.vox.keys, j, n)| == d.total
            && CellsOf(d.points, Grid(LevelVoxelMeters(ladder, level)))
               == Unfiltered(f.vox.keys, j, n)[|Unfiltered(f.vox.keys, j, v)|..]
  {
    DerivedCells(ladder, f, level, filter, v);
    assert Flags(filter, f) == AllPass(|f.vox.keys|);
    LevelGrows(f.vox.keys, AllPass(|f.vox.keys|), Doublings(ladder, level), v, |f.vox.keys|);
  }

  /**
   * Without a filter, a full derivation followed by what was added since its version holds exactly
   * the cells, in order, of the full derivation now; so the divergence test never fires.
   */
  lemma DeltaCompletesKeyframe(ladder: Ladder, f: Fine, f': Fine, level: nat, filter: Option<Filter>)
    requires WellFormed(ladder) && Grows(f, f') && !Filtering(filter)
    requires WellKeyed(Grid(ladder.fuseVoxelMeters), f.vox) && WellKeyed(Grid(ladder.fuseVoxelMeters), f'.vox)
    ensures Sound(f.vox) && Sound(f'.vox)
    ensures var held := Derived(ladder, f, level, filter, 0);
            var delta, full := Derived(ladder, f', level, filter, held.version), Derived(ladder, f', level, filter, 0);
            var gridOf := Grid(LevelVoxelMeters(ladder, level));
            && held.total == |held.points| && delta.total == full.total == held.total + |delta.points|
            && CellsOf(full.points, gridOf) == CellsOf(held.points, gridOf) + CellsOf(delta.points, gridOf)
  {
    hide WellKeyed, Derived, Level;
    var j, v, gridOf := Doublings(ladder, level), |f.vox.keys|, Grid(LevelVoxelMeters(ladder, level));
    UnfilteredCells(ladder, f, level, filter, 0);
    UnfilteredCells(ladder, f', level, filter, v);
    UnfilteredCells(ladder, f', level, filter, 0);
    UnfilteredGrows(f.vox.keys, f'.vox.keys, j, v);
    NoCellsYet(f.vox.keys, j);
    NoCellsYet(f'.vox.keys, j);
    hide Unfiltered, Grid, Doublings;
    var held := Derived(ladder, f, level, filter, 0);
    assert |CellsOf(held.points, gridOf)| == |held.points|;
    assert |CellsOf(Derived(ladder, f', level, filter, v).points, gridOf)|
        == |Derived(ladder, f', level, filter, v).points|;
  }

  lemma NoCellsYet(keys: seq<Cell>, j: nat)
    ensures Unfiltered(keys, j, 0) == []
  {
  }

  // ---------------------------------------------------------------- filtering on hits alone

  ghost function CellSet(cells: seq<Cell>): set<Cell> {
    set c | c in cells
  }

  lemma {:induction false} OnceSize(cells: seq<Cell>)
    requires Once(cells)
    ensures |CellSet(cells)| == |cells|
    decreases |cells|
  {
    if |cells| > 0 {
      var init := cells[..|cells| - 1];
      OnceSize(init);
      assert CellSet(cells) == CellSet(init) + {cells[|cells| - 1]};
      assert cells[|cells| - 1] !in init;
    }
  }

  /** A voxel that passes keeps passing while the chunk grows. */
  lemma PassingStays(filter: Option<Filter>, f: Fine, f': Fine, i: nat)
    requires Sound(f.vox) && Sound(f'.vox) && Grows(f, f') && filter.Some? && filter.value.minRatio == 0.0
    requires i < |f.vox.keys|
    ensures Flags(filter, f)[i] ==> Flags(filter, f')[i]
  {
    assert f.vox.keys[i] == f'.vox.keys[i] && f.vox.keys[i] in f.vox.keys;
  }

  lemma SubsetSize(a: set<Cell>, b: set<Cell>)
    requires a <= b
    ensures |a| <= |b| && (|a| == |b| <==> a == b)
  {
    assert b == a + (b - a);
  }

  /** Appending the new tail to what is held gives the whole level exactly when the counts add up. */
  lemma CountsDecide(held: seq<Cell>, before: seq<Cell>, now: seq<Cell>)
    requires Once(held) && Once(now) && before <= now && CellSet(held) <= CellSet(before)
    ensures |now| != |held| + |now[|before|..]| <==> CellSet(held) + CellSet(now[|before|..]) != CellSet(now)
  {
    var tail := now[|before|..];
    assert now == before + tail;
    OnceSize(held);
    OnceSize(before);
    SubsetSize(CellSet(held), CellSet(before));
    forall c | c in before ensures c !in tail {
      var i :| 0 <= i < |before| && before[i] == c;
      assert now[i] == c;
    }
    assert CellSet(now) == CellSet(before) + CellSet(tail);
    if CellSet(held) + CellSet(tail) == CellSet(now) {
      forall c | c in CellSet(before) ensures c in CellSet(held) { assert c in CellSet(now); }
    }
  }

  /**
   * For a filter on hits alone, the count test fires exactly when what the viewer would hold after
   * appending the delta differs, as a set of cells, from the full filtered derivation.
   */
  lemma DivergenceIsExact(ladder: Ladder, f: Fine, f': Fine, level: nat, filter: Option<Filter>, held: seq<Cell>)
    requires WellFormed(ladder) && Grows(f, f') && filter.Some? && filter.value.minRatio == 0.0
    requires WellKeyed(Grid(ladder.fuseVoxelMeters), f.vox) && WellKeyed(Grid(ladder.fuseVoxelMeters), f'.vox)
    requires Sound(f.vox) && Sound(f'.vox) && Once(held)
    requires CellSet(held)
             == CellSet(CellsOf(Derived(ladder, f, level, filter, 0).points, Grid(LevelVoxelMeters(ladder, level))))
    ensures var delta, full := Derived(ladder, f', level, filter, |f.vox.keys|), Derived(ladder, f', level, filter, 0);
            var gridOf := Grid(LevelVoxelMeters(ladder, level));
            delta.total != |held| + |delta.points|
            <==> CellSet(held) + CellSet(CellsOf(delta.points, gridOf)) != CellSet(CellsOf(full.points, gridOf))
  {
    var j, v, n := Doublings(ladder, level), |f.vox.keys|, |f'.vox.keys|;
    var flags, flags' := Flags(filter, f), Flags(filter, f');
    DerivedCells(ladder, f, level, filter, 0);
    DerivedCells(ladder, f', level, filter, v);
    DerivedCells(ladder, f', level, filter, 0);
    forall i | 0 <= i < v ensures f.vox.keys[i] == f'.vox.keys[i] && (flags[i] ==> flags'[i]) {
      PassingStays(filter, f, f', i);
    }
    LevelMonotone(f.vox.keys, flags, f'.vox.keys, flags', j, v);
    LevelGrows(f'.vox.keys, flags', j, v, n);
    assert Level(f.vox.keys, flags, j, 0) == [] && Level(f'.vox.keys, flags', j, 0) == [];
    hide Derived, Level, Flags, WellKeyed;
    CountsDecide(held, Level(f'.vox.keys, flags', j, v), Level(f'.vox.keys, flags', j, n));
    assert |CellsOf(Derived(ladder, f', level, filter, v).points, Grid(LevelVoxelMeters(ladder, level)))|
        == |Derived(ladder, f', level, filter, v).points|;
  }

  // ---------------------------------------------------------------- the order of what is held

  /**
   * When the counts agree, what the viewer holds after the delta is in the order of the full filtered
   * derivation exactly when the cells held before it were in the order the full derivation now gives
   * them.
   */
  lemma HeldOrderIsFullOrderIff(ladder: Ladder, f: Fine, f': Fine, level: nat, filter: Option<Filter>, held: seq<Cell>)
    requires WellFormed(ladder) && Grows(f, f')
    requires WellKeyed(Grid(ladder.fuseVoxelMeters), f'.vox) && Sound(f'.vox)
    requires var delta := Derived(ladder, f', level, filter, |f.vox.keys|); delta.total == |held| + |delta.points|
    ensures var delta, full := Derived(ladder, f', level, filter, |f.vox.keys|), Derived(ladder, f', level, filter, 0);
            var gridOf := Grid(LevelVoxelMeters(ladder, level));
            held + CellsOf(delta.points, gridOf) == CellsOf(full.points, gridOf)
            <==> held == Level(f'.vox.keys, Flags(filter, f'), Doublings(ladder, level), |f.vox.keys|)
  {
    var j, v, n := Doublings(ladder, level), |f.vox.keys|, |f'.vox.keys|;
    var keys, flags := f'.vox.keys, Flags(filter, f');
    DerivedCells(ladder, f', level, filter, v);
    DerivedCells(ladder, f', level, filter, 0);
    LevelGrows(keys, flags, j, v, n);
    assert Level(keys, flags, j, 0) == [];
    var gridOf, delta := Grid(LevelVoxelMeters(ladder, level)), Derived(ladder, f', level, filter, v);
    assert |CellsOf(delta.points, gridOf)| == |delta.points|;
    hide Derived, Level, Flags, WellKeyed;
    SameTail(held, Level(keys, flags, j, v), Level(keys, flags, j, n));
  }

  lemma SameTail(held: seq<Cell>, before: seq<Cell>, now: seq<Cell>)
    requires before <= now && |held| == |before|
    ensures held + now[|before|..] == now <==> held == before
  {
    assert now == before + now[|before|..];
    if held + now[|before|..] == now {
      assert (held + now[|before|..])[..|held|] == held && now[..|before|] == before;
    }
  }

  /** At the finest level every passing voxel is its own cell, in the chunk's own order. */
  lemma {:induction false} FinestHas(keys: seq<Cell>, flags: seq<bool>, n: nat, i: nat)
    requires Once(keys) && i < n <= |keys| == |flags|
    ensures keys[i] in Level(keys, flags, 0, n) <==> flags[i]
    ensures forall c :: c in Level(keys, flags, 0, n) ==> c in keys[..n]
  {
    assert Coarser(keys[n - 1], 0) == keys[n - 1];
    assert keys[..n] == keys[..n - 1] + [keys[n - 1]];
    assert keys[n - 1] !in keys[..n - 1];
    if i < n - 1 {
      FinestHas(keys, flags, n - 1, i);
    } else if n > 1 {
      FinestHas(keys, flags, n - 1, 0);
    } else {
      assert Level(keys, flags, 0, 0) == [];
    }
  }

  /** So there the same cells are always in the same order. */
  lemma FinestOrderIsFixed(keys: seq<Cell>, flags: seq<bool>, flags': seq<bool>, n: nat)
    requires Once(keys) && n <= |keys| == |flags| == |flags'|
    requires CellSet(Level(keys, flags, 0, n)) == CellSet(Level(keys, flags', 0, n))
    ensures Level(keys, flags, 0, n) == Level(keys, flags', 0, n)
  {
    forall i | 0 <= i < n ensures flags[i] == flags'[i] {
      FinestHas(keys, flags, n, i);
      FinestHas(keys, flags', n, i);
      assert keys[i] in CellSet(Level(keys, flags, 0, n)) <==> keys[i] in Level(keys, flags, 0, n);
    }
    LevelSame(keys, flags, keys, flags', 0, n);
  }

  /** At the finest level a delta that passes the count test therefore also completes the order. */
  lemma FinestDeltaKeepsOrder(ladder: Ladder, f: Fine, f': Fine, level: nat, filter: Option<Filter>)
    requires WellFormed(ladder) && level + 1 >= ladder.numLevels && Grows(f, f') && filter.Some?
             && filter.value.minRatio == 0.0
    requires WellKeyed(Grid(ladder.fuseVoxelMeters), f.vox) && WellKeyed(Grid(ladder.fuseVoxelMeters), f'.vox)
    requires Sound(f.vox) && Sound(f'.vox)
    requires var held, delta := Derived(ladder, f, level, filter, 0), Derived(ladder, f', level, filter, |f.vox.keys|);
             delta.total == |held.points| + |delta.points|
    ensures var held, delta := Derived(ladder, f, level, filter, 0), Derived(ladder, f', level, filter, |f.vox.keys|);
            var full, gridOf := Derived(ladder, f', level, filter, 0), Grid(LevelVoxelMeters(ladder, level));
            CellsOf(held.points, gridOf) + CellsOf(delta.points, gridOf) == CellsOf(full.points, gridOf)
  {
    hide Derived, Level, Flags, WellKeyed;
    var gridOf, v, n := Grid(LevelVoxelMeters(ladder, level)), |f.vox.keys|, |f'.vox.keys|;
    var flags, flags' := Flags(filter, f), Flags(filter, f');
    var points := Derived(ladder, f, level, filter, 0).points;
    DerivedCells(ladder, f, level, filter, 0);
    DerivedCells(ladder, f', level, filter, v);
    LevelBounded(f.vox.keys, flags, 0, 0);
    assert CellsOf(points, gridOf) == Level(f.vox.keys, flags, 0, v);
    assert |CellsOf(points, gridOf)| == |points|;
    assert |CellsOf(Derived(ladder, f', level, filter, v).points, gridOf)|
        == |Derived(ladder, f', level, filter, v).points|;
    forall i | 0 <= i < v ensures f.vox.keys[i] == f'.vox.keys[i] && (flags[i] ==> flags'[i]) {
      PassingStays(filter, f, f', i);
    }
    HeldOrderIsFullOrderIff(ladder, f, f', level, filter, CellsOf(points, gridOf));
    assert Once(f.vox.keys);
    FinestSameSize(f.vox.keys, flags, f'.vox.keys, flags', v);
  }

  lemma FinestSameSize(keys: seq<Cell>, flags: seq<bool>, keys': seq<Cell>, flags': seq<bool>, n: nat)
    requires Once(keys) && n == |keys| == |flags| && n <= |keys'| == |flags'|
    requires forall i :: 0 <= i < n ==> keys[i] == keys'[i] && (flags[i] ==> flags'[i])
    requires |Level(keys, flags, 0, n)| == |Level(keys', flags', 0, n)|
    ensures Level(keys, flags, 0, n) == Level(keys', flags', 0, n)
  {
    hide Level;
    var was, now := Level(keys, flags, 0, n), Level(keys, flags'[..n], 0, n);
    LevelSame(keys, flags'[..n], keys', flags', 0, n);
    LevelMonotone(keys, flags, keys, flags'[..n], 0, n);
    LevelGrows(keys, flags, 0, n, n);
    LevelGrows(keys, flags'[..n], 0, n, n);
    OnceSize(was);
    OnceSize(now);
    SubsetSize(CellSet(was), CellSet(now));
    FinestOrderIsFixed(keys, flags, flags'[..n], n);
  }

  // ---------------------------------------------------------------- an input where the order differs

  const TWO_LEVELS := Ladder(1.0, 2)
  const TWICE := Some(Filter(2, 0.0))

  const LEFT := Cell(0, 0, 0)
  const RIGHT := Cell(2, 0, 0)
  const NEXT := Cell(1, 0, 0)

  /** A voxel hit `n` times in its middle. */
  function Hit(x: real, n: nat): Acc {
    Acc(Vec((x + 0.5) * n as real, 0.5 * n as real, 0.5 * n as real), 0, 0, 0, 0, n, 1)
  }

  /** Three voxels, the first hit `n` times and the others twice; the first and last share a coarse cell. */
  function Three(n: nat): Fine {
    Fine(VoxelMap([LEFT, RIGHT, NEXT], map[LEFT := Hit(0.0, n), RIGHT := Hit(2.0, 2), NEXT := Hit(1.0, 2)]), 3)
  }

  lemma HitFits(x: real, c: int, n: nat)
    requires n > 0 && x == c as real
    ensures Fits(Grid(1.0), Hit(x, n), Cell(c, 0, 0))
  {
    Average(x + 0.5, n);
    Average(0.5, n);
    FloorDivIs(0.5, 1.0, 0);
    FloorDivIs(x + 0.5, 1.0, c);
    var mean := Mean(Hit(x, n));
    assert mean == Vec(x + 0.5, 0.5, 0.5);
    assert Grid(1.0)(mean) == CellOf(mean, 1.0);
  }

  lemma Average(x: real, n: nat)
    requires n > 0
    ensures x * n as real / n as real == x
  {
  }

  lemma ThreeWellKeyed(n: nat)
    requires n > 0
    ensures WellKeyed(Grid(1.0), Three(n).vox) && Sound(Three(n).vox)
  {
    HitFits(0.0, 0, n);
    HitFits(2.0, 2, 2);
    HitFits(1.0, 1, 2);
    hide Hit, Fits;
  }

  lemma ThreeFlags(n: nat)
    requires 0 < n <= 2
    ensures Sound(Three(n).vox) && Flags(TWICE, Three(n)) == [n >= 2, true, true]
  {
    ThreeWellKeyed(n);
    assert Nth(Three(n).vox, 0) == Hit(0.0, n) && Nth(Three(n).vox, 1) == Hit(2.0, 2)
        && Nth(Three(n).vox, 2) == Hit(1.0, 2);
  }

  lemma ThreeLevel(first: bool)
    ensures var keys, flags := [LEFT, RIGHT, NEXT], [first, true, true];
            && Level(keys, flags, 1, 0) == []
            && Level(keys, flags, 1, 3) == if first then [LEFT, NEXT] else [NEXT, LEFT]
  {
    var keys, flags := [LEFT, RIGHT, NEXT], [first, true, true];
    assert Pow2(1) == 2;
    assert Coarser(LEFT, 1) == LEFT && Coarser(RIGHT, 1) == NEXT && Coarser(NEXT, 1) == LEFT;
    assert Level(keys, flags, 1, 0) == [];
    assert Level(keys, flags, 1, 1) == if first then [LEFT] else [];
    assert Level(keys, flags, 1, 2) == if first then [LEFT, NEXT] else [NEXT];
  }

  /** The three voxels on the coarser level: two cells, in an order that depends on whether the first passes. */
  lemma ThreeDerived(n: nat, since: nat)
    requires 0 < n <= 2 && (since == 0 || since == 3)
    ensures Sound(Three(n).vox)
    ensures var d := Derived(TWO_LEVELS, Three(n), 0, TWICE, since);
            && d.version == 3 && d.total == 2
            && CellsOf(d.points, Grid(LevelVoxelMeters(TWO_LEVELS, 0)))
               == if since == 3 then [] else if n == 2 then [LEFT, NEXT] else [NEXT, LEFT]
  {
    ThreeWellKeyed(n);
    ThreeFlags(n);
    ThreeLevel(n >= 2);
    assert Three(n).vox.keys == [LEFT, RIGHT, NEXT];
    assert Doublings(TWO_LEVELS, 0) == 1;
    hide Three, Level, Flags, WellKeyed, Sound, Derived, CellsOf, LevelVoxelMeters, Doublings;
    DerivedCells(TWO_LEVELS, Three(n), 0, TWICE, since);
  }

  lemma ThreeGrows()
    ensures Grows(Three(1), Three(2))
  {
    hide Hit;
    assert Hit(0.0, 1).o0 == Hit(0.0, 2).o0 && Hit(0.0, 1).n == 1 && Hit(0.0, 2).n == 2
      by { HitIs(0.0, 1); HitIs(0.0, 2); }
  }

  lemma HitIs(x: real, n: nat)
    ensures Hit(x, n).n == n && Hit(x, n).o0 == 1
  {
  }

  /**
   * So on a coarser level the order can differ with the counts in agreement: when an early voxel of a
   * later cell starts to pass, the full derivation lists that cell first and the viewer holds it last.
   */
  lemma OrderMayDiffer()
    ensures WellFormed(TWO_LEVELS) && Grows(Three(1), Three(2))
    ensures WellKeyed(Grid(TWO_LEVELS.fuseVoxelMeters), Three(1).vox)
            && WellKeyed(Grid(TWO_LEVELS.fuseVoxelMeters), Three(2).vox)
    ensures Sound(Three(1).vox) && Sound(Three(2).vox)
    ensures var held := Derived(TWO_LEVELS, Three(1), 0, TWICE, 0);
            var delta, full := Derived(TWO_LEVELS, Three(2), 0, TWICE, held.version),
                Derived(TWO_LEVELS, Three(2), 0, TWICE, 0);
            var gridOf := Grid(LevelVoxelMeters(TWO_LEVELS, 0));
            && delta.total == held.total + |delta.points|
            && CellsOf(held.points, gridOf) + CellsOf(delta.points, gridOf) == [NEXT, LEFT]
            && CellsOf(full.points, gridOf) == [LEFT, NEXT]
  {
    hide WellKeyed, Sound, Derived, Three, Grows, CellsOf, LevelVoxelMeters;
    assert LevelVoxelMeters(TWO_LEVELS, 0) > 0.0;
    ThreeGrows();
    ThreeWellKeyed(1);
    ThreeWellKeyed(2);
    ThreeDerived(1, 0);
    ThreeDerived(2, 3);
    ThreeDerived(2, 0);
    var delta, gridOf := Derived(TWO_LEVELS, Three(2), 0, TWICE, 3), Grid(LevelVoxelMeters(TWO_LEVELS, 0));
    assert |CellsOf(delta.points, gridOf)| == |delta.points| by { CellsOfSize(delta.points, gridOf); }
  }

  lemma CellsOfSize(points: seq<Point>, gridOf: Vec -> Cell)
    ensures |CellsOf(points, gridOf)| == |points|
  {
  }
}
