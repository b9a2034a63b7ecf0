/** Serving a chunk at a level of detail: in full, or only what was added since a version. */
module Lod {
  import opened Voxels

  /** The finest voxel edge and the number of levels; each coarser level doubles the edge. */
  datatype Ladder = Ladder(fuseVoxelMeters: real, numLevels: nat)

  /** Keep voxels hit often enough, absolutely and relative to the times they could have been seen. */
  datatype Filter = Filter(minHits: nat, minRatio: real)

  /** A chunk as served: its fine voxels and its cell's opportunity count. */
  datatype Fine = Fine(vox: VoxelMap, opportunities: nat)

  /** Points of a chunk at a level; `total` counts the full derivation, `version` its fine voxels. */
  datatype Derivation = Derivation(points: seq<Point>, version: nat, total: nat)

  ghost predicate WellFormed(ladder: Ladder) {
    ladder.fuseVoxelMeters > 0.0 && ladder.numLevels > 0
  }

  function Pow2(j: nat): nat
    ensures Pow2(j) > 0
  {
    if j == 0 then 1 else 2 * Pow2(j - 1)
  }

  /** How many doublings a level is above the finest. */
  function Doublings(ladder: Ladder, level: nat): nat {
    if level + 1 >= ladder.numLevels then 0 else ladder.numLevels - 1 - level
  }

  function LevelVoxelMeters(ladder: Ladder, level: nat): (r: real)
    requires ladder.fuseVoxelMeters > 0.0
    ensures r > 0.0
  {
    ladder.fuseVoxelMeters * Pow2(Doublings(ladder, level)) as real
  }

  // ---------------------------------------------------------------- representatives

  function Rounded(sum: int, n: nat): int
    requires n > 0
  {
    (2 * sum + n) / (2 * n)
  }

  function Clamp(v: int, max: nat): int {
    if v < 0 then 0 else if v > max then max else v
  }

  /** The point sent for a voxel: the component means. */
  function Rep(acc: Acc): Point
    requires acc.n > 0
  {
    Point(Mean(acc), Clamp(Rounded(acc.r, acc.n), 255), Clamp(Rounded(acc.g, acc.n), 255),
          Clamp(Rounded(acc.b, acc.n), 255), Clamp(Rounded(acc.i, acc.n), 65535))
  }

  ghost predicate Sound(vm: VoxelMap) {
    Wf(vm) && forall k :: k in vm.at ==> vm.at[k].n > 0
  }

  function Nth(vm: VoxelMap, i: nat): Acc
    requires Sound(vm) && i < |vm.keys|
  {
    assert vm.keys[i] in vm.keys;
    vm.at[vm.keys[i]]
  }

  function Samples(vm: VoxelMap): (s: seq<Point>)
    requires Sound(vm)
    ensures |s| == |vm.keys|
  {
    seq(|vm.keys|, i requires 0 <= i < |vm.keys| => Rep(Nth(vm, i)))
  }

  predicate Filtering(filter: Option<Filter>) {
    filter.Some? && (filter.value.minHits > 1 || filter.value.minRatio > 0.0)
  }

  function Seen(opportunities: nat, acc: Acc): (seen: int)
    ensures seen >= 1
  {
    if opportunities - acc.o0 + 1 > 1 then opportunities - acc.o0 + 1 else 1
  }

  predicate Passes(filter: Option<Filter>, opportunities: nat, acc: Acc) {
    Filtering(filter) ==>
      acc.n >= filter.value.minHits && acc.n as real / Seen(opportunities, acc) as real >= filter.value.minRatio
  }

  function Flags(filter: Option<Filter>, f: Fine): (flags: seq<bool>)
    requires Sound(f.vox)
    ensures |flags| == |f.vox.keys|
  {
    seq(|f.vox.keys|, i requires 0 <= i < |f.vox.keys| => Passes(filter, f.opportunities, Nth(f.vox, i)))
  }

  /** What a filter asks of a voxel: hits enough, also for the opportunities since its first one, that one included. */
  ghost predicate Earns(filter: Option<Filter>, opportunities: nat, acc: Acc) {
    var seen := if opportunities - acc.o0 + 1 > 1 then opportunities - acc.o0 + 1 else 1;
    filter.Some? ==> acc.n >= filter.value.minHits && acc.n as real >= filter.value.minRatio * seen as real
  }

  /** The voxels that earn their place, from `since` on, among the first `n`. */
  ghost function Chosen(filter: Option<Filter>, f: Fine, since: nat, n: nat): seq<nat>
    requires Sound(f.vox) && n <= |f.vox.keys|
  {
    if n == 0 then []
    else
      Chosen(filter, f, since, n - 1)
      + if n - 1 >= since && Earns(filter, f.opportunities, Nth(f.vox, n - 1)) then [n - 1] else []
  }

  ghost predicate Rising(picks: seq<nat>, n: nat) {
    && (forall i :: 0 <= i < |picks| ==> picks[i] < n)
    && (forall i, j :: 0 <= i < j < |picks| ==> picks[i] < picks[j])
  }

  /** Each of them, and no other, once and in order. */
  lemma ChosenAre(filter: Option<Filter>, f: Fine, since: nat, n: nat)
    requires Sound(f.vox) && n <= |f.vox.keys|
    ensures var chosen := Chosen(filter, f, since, n);
            && (forall i: nat :: i in chosen <==>
                  since <= i < n && Earns(filter, f.opportunities, Nth(f.vox, i)))
            && Rising(chosen, n)
  {
    hide Earns;
    forall i: nat
      ensures i in Chosen(filter, f, since, n) <==>
              since <= i < n && Earns(filter, f.opportunities, Nth(f.vox, i))
    {
      ChosenHas(filter, f, since, n, i);
    }
    ChosenRises(filter, f, since, n);
  }

  lemma {:induction false} ChosenHas(filter: Option<Filter>, f: Fine, since: nat, n: nat, i: nat)
    requires Sound(f.vox) && n <= |f.vox.keys|
    ensures i in Chosen(filter, f, since, n)
            <==> since <= i < n && Earns(filter, f.opportunities, Nth(f.vox, i))
    decreases n
  {
    hide Earns;
    if n > 0 { ChosenHas(filter, f, since, n - 1, i); }
  }

  lemma {:induction false} ChosenRises(filter: Option<Filter>, f: Fine, since: nat, n: nat)
    requires Sound(f.vox) && n <= |f.vox.keys|
    ensures Rising(Chosen(filter, f, since, n), n)
    decreases n
  {
    hide Earns;
    if n > 0 {
      ChosenRises(filter, f, since, n - 1);
    }
  }

  lemma PassesIfEarned(filter: Option<Filter>, opportunities: nat, acc: Acc)
    requires acc.n > 0
    ensures Passes(filter, opportunities, acc) <==> Earns(filter, opportunities, acc)
  {
    if filter.Some? {
      var n, seen, ratio := acc.n as real, Seen(opportunities, acc) as real, filter.value.minRatio;
      Quotient(ratio, n, seen);
      if ratio <= 0.0 { MulMono(ratio, 0.0, seen); }
    }
  }

  lemma FlagIsEarned(filter: Option<Filter>, f: Fine, i: nat)
    requires Sound(f.vox) && i < |f.vox.keys|
    ensures Flags(filter, f)[i] <==> Earns(filter, f.opportunities, Nth(f.vox, i))
    ensures Samples(f.vox)[i] == Rep(Nth(f.vox, i))
  {
    assert f.vox.keys[i] in f.vox.keys;
    PassesIfEarned(filter, f.opportunities, Nth(f.vox, i));
  }

  /** The points are those of the chosen voxels. */
  ghost predicate Shows(vox: VoxelMap, points: seq<Point>, chosen: seq<nat>)
    requires Sound(vox)
  {
    |points| == |chosen| && forall i :: 0 <= i < |chosen| ==>
      chosen[i] < |vox.keys| && points[i] == Rep(Nth(vox, chosen[i]))
  }

  lemma ShowsOneMore(vox: VoxelMap, points: seq<Point>, chosen: seq<nat>, i: nat)
    requires Sound(vox) && Shows(vox, points, chosen) && i < |vox.keys|
    ensures Shows(vox, points + [Rep(Nth(vox, i))], chosen + [i])
  {
    hide Rep, Nth;
  }

  lemma {:induction false} PassingIsChosen(filter: Option<Filter>, f: Fine, since: nat, n: nat)
    requires Sound(f.vox) && n <= |f.vox.keys|
    ensures Shows(f.vox, Passing(Samples(f.vox), Flags(filter, f), since, n), Chosen(filter, f, since, n))
    decreases n
  {
    hide Shows, Samples, Flags, Earns, Rep, Nth, Sound;
    if n > 0 {
      PassingIsChosen(filter, f, since, n - 1);
      NextShown(filter, f, since, n);
    } else {
      NoneShown(f.vox);
    }
  }

  lemma NoneShown(vox: VoxelMap)
    requires Sound(vox)
    ensures Shows(vox, [], [])
  {
  }

  lemma NextShown(filter: Option<Filter>, f: Fine, since: nat, n: nat)
    requires Sound(f.vox) && 0 < n <= |f.vox.keys|
    requires Shows(f.vox, Passing(Samples(f.vox), Flags(filter, f), since, n - 1), Chosen(filter, f, since, n - 1))
    ensures Shows(f.vox, Passing(Samples(f.vox), Flags(filter, f), since, n), Chosen(filter, f, since, n))
  {
    hide Shows, Passing, Chosen, Earns, Rep, Nth, Samples, Flags;
    FlagIsEarned(filter, f, n - 1);
    NextPassing(Samples(f.vox), Flags(filter, f), since, n);
    NextChosen(filter, f, since, n);
    var passing, chosen := Passing(Samples(f.vox), Flags(filter, f), since, n - 1), Chosen(filter, f, since, n - 1);
    ShowsOneMore(f.vox, passing, chosen, n - 1);
  }

  lemma NextPassing(samples: seq<Point>, flags: seq<bool>, since: nat, n: nat)
    requires 0 < n <= |samples| == |flags|
    ensures var before := Passing(samples, flags, since, n - 1);
            Passing(samples, flags, since, n)
            == if flags[n - 1] && n - 1 >= since then before + [samples[n - 1]] else before
  {
  }

  lemma NextChosen(filter: Option<Filter>, f: Fine, since: nat, n: nat)
    requires Sound(f.vox) && 0 < n <= |f.vox.keys|
    ensures var before := Chosen(filter, f, since, n - 1);
            Chosen(filter, f, since, n)
            == if Earns(filter, f.opportunities, Nth(f.vox, n - 1)) && n - 1 >= since then before + [n - 1] else before
  {
    hide Earns, Nth;
  }

  // ---------------------------------------------------------------- the full derivation

  /** A coarse cell being averaged and the index of its first passing fine voxel. */
  datatype Bin = Bin(acc: Acc, first: nat)

  datatype BinMap = BinMap(keys: seq<Cell>, at: map<Cell, Bin>)

  function AddSample(gridOf: Vec -> Cell, m: BinMap, p: Point, i: nat): BinMap {
    var key := gridOf(p.at);
    if key in m.at then m.(at := m.at[key := m.at[key].(acc := AddTo(m.at[key].acc, p))])
    else BinMap(m.keys + [key], m.at[key := Bin(AddTo(Fresh(0), p), i)])
  }

  /** The first `n` samples averaged per cell, cells in order of first appearance. */
  function Bins(gridOf: Vec -> Cell, samples: seq<Point>, flags: seq<bool>, n: nat): BinMap
    requires n <= |samples| == |flags|
  {
    if n == 0 then BinMap([], map[])
    else
      var m := Bins(gridOf, samples, flags, n - 1);
      if flags[n - 1] then AddSample(gridOf, m, samples[n - 1], n - 1) else m
  }

  ghost predicate Binned(m: BinMap) {
    && (forall k :: k in m.keys <==> k in m.at)
    && (forall i, j :: 0 <= i < j < |m.keys| ==> m.keys[i] != m.keys[j])
    && (forall k :: k in m.at ==> m.at[k].acc.n > 0)
  }

  lemma {:induction false} BinsAreBinned(gridOf: Vec -> Cell, samples: seq<Point>, flags: seq<bool>, n: nat)
    requires n <= |samples| == |flags|
    ensures Binned(Bins(gridOf, samples, flags, n))
  {
    if n > 0 { BinsAreBinned(gridOf, samples, flags, n - 1); }
  }

  /** The averages of the cells first seen at or after `since`, among the first `n` cells. */
  function NewReps(m: BinMap, since: nat, n: nat): seq<Point>
    requires Binned(m) && n <= |m.keys|
  {
    if n == 0 then []
    else
      assert m.keys[n - 1] in m.keys;
      var bin := m.at[m.keys[n - 1]];
      NewReps(m, since, n - 1) + if bin.first >= since then [Rep(bin.acc)] else []
  }

  function Passing(samples: seq<Point>, flags: seq<bool>, since: nat, n: nat): seq<Point>
    requires n <= |samples| == |flags|
  {
    if n == 0 then []
    else Passing(samples, flags, since, n - 1) + if flags[n - 1] && n - 1 >= since then [samples[n - 1]] else []
  }

  function Derived(ladder: Ladder, f: Fine, level: nat, filter: Option<Filter>, since: nat): Derivation
    requires ladder.fuseVoxelMeters > 0.0 && Sound(f.vox)
  {
    var n := |f.vox.keys|;
    var samples, flags := Samples(f.vox), Flags(filter, f);
    if n == 0 then Derivation([], 0, 0)
    else if level + 1 >= ladder.numLevels then
      Derivation(Passing(samples, flags, since, n), n, |Passing(samples, flags, 0, n)|)
    else
      var m := Bins(Grid(LevelVoxelMeters(ladder, level)), samples, flags, n);
      BinsAreBinned(Grid(LevelVoxelMeters(ladder, level)), samples, flags, n);
      Derivation(NewReps(m, since, |m.keys|), n, |m.keys|)
  }

  // ---------------------------------------------------------------- the derivation as code

  /** At the finest level, the voxels that earn their place, from the version on; `total` counts all that do. */
  method DeriveChunk(ladder: Ladder, f: Fine, level: nat, filter: Option<Filter>, sinceVersion: Option<nat>)
    returns (d: Derivation)
    requires ladder.fuseVoxelMeters > 0.0 && Sound(f.vox)
    ensures d == Derived(ladder, f, level, filter, if sinceVersion.Some? then sinceVersion.value else 0)
    ensures d.version == |f.vox.keys|
    ensures level + 1 >= ladder.numLevels ==>
              var chosen := Chosen(filter, f, if sinceVersion.Some? then sinceVersion.value else 0, |f.vox.keys|);
              d.total == |Chosen(filter, f, 0, |f.vox.keys|)| && Shows(f.vox, d.points, chosen)
  {
    hide Earns, Passes, Rep;
    var count := |f.vox.keys|;
    if count == 0 { return Derivation([], 0, 0); }
    var since := if sinceVersion.Some? then sinceVersion.value else 0;
    var samples, flags := Samples(f.vox), Flags(filter, f);
    if level + 1 >= ladder.numLevels {
      PassingIsChosen(filter, f, since, count);
      PassingIsChosen(filter, f, 0, count);
      d := DeriveFinest(samples, flags, since);
    } else {
      d := DeriveCoarse(LevelVoxelMeters(ladder, level), samples, flags, since);
    }
  }

  /** At the finest level every passing voxel is its own cell. */
  method DeriveFinest(samples: seq<Point>, flags: seq<bool>, since: nat) returns (d: Derivation)
    requires |samples| == |flags|
    ensures d == Derivation(Passing(samples, flags, since, |samples|), |samples|,
                            |Passing(samples, flags, 0, |samples|)|)
  {
    var total := 0;
    for i := 0 to |samples|
      invariant total == |Passing(samples, flags, 0, i)|
    {
      if flags[i] { total := total + 1; }
    }
    var points := [];
    if since < |samples| {
      NothingBefore(samples, flags, since, since);
      for i := since to |samples|
        invariant points == Passing(samples, flags, since, i)
      {
        if flags[i] { points := points + [samples[i]]; }
      }
    } else {
      NothingBefore(samples, flags, since, |samples|);
    }
    return Derivation(points, |samples|, total);
  }

  lemma {:induction false} NothingBefore(samples: seq<Point>, flags: seq<bool>, since: nat, n: nat)
    requires n <= |samples| == |flags| && n <= since
    ensures Passing(samples, flags, since, n) == []
  {
    if n > 0 { NothingBefore(samples, flags, since, n - 1); }
  }

  /** At a coarser level, re-bin the fine representatives, each counted once. */
  method DeriveCoarse(size: real, samples: seq<Point>, flags: seq<bool>, since: nat) returns (d: Derivation)
    requires size > 0.0 && |samples| == |flags|
    ensures var m := Bins(Grid(size), samples, flags, |samples|);
            Binned(m) && d == Derivation(NewReps(m, since, |m.keys|), |samples|, |m.keys|)
  {
    var cells := BinMap([], map[]);
    for i := 0 to |samples|
      invariant cells == Bins(Grid(size), samples, flags, i)
    {
      if flags[i] {
        var key := CellOf(samples[i].at, size);
        if key !in cells.at {
          cells := BinMap(cells.keys + [key], cells.at[key := Bin(Fresh(0), i)]);
        }
        cells := cells.(at := cells.at[key := cells.at[key].(acc := AddTo(cells.at[key].acc, samples[i]))]);
      }
    }
    BinsAreBinned(Grid(size), samples, flags, |samples|);
    var added := [];
    for c := 0 to |cells.keys|
      invariant Binned(cells) && added == NewReps(cells, since, c)
    {
      assert cells.keys[c] in cells.keys;
      var bin := cells.at[cells.keys[c]];
      if bin.first >= since { added := added + [Rep(bin.acc)]; }
    }
    return Derivation(added, |samples|, |cells.keys|);
  }
}
