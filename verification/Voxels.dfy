/** Voxel accumulators: the running sums one chunk keeps, in the order its voxels appeared. */
module Voxels {
  datatype Option<+T> = None | Some(value: T)

  datatype Vec = Vec(x: real, y: real, z: real)

  /** A world-frame point: position, colour and intensity. */
  datatype Point = Point(at: Vec, r: int, g: int, b: int, i: int)

  /** Integer coordinates of a grid cell; used for voxels, coarse cells and chunks. */
  datatype Cell = Cell(x: int, y: int, z: int)

  /** Component sums and hit count of a voxel, with the chunk's opportunity count at its birth. */
  datatype Acc = Acc(sum: Vec, r: int, g: int, b: int, i: int, n: nat, o0: nat)

  /** A map that remembers insertion order. */
  datatype VoxelMap = VoxelMap(keys: seq<Cell>, at: map<Cell, Acc>)

  const EMPTY := VoxelMap([], map[])

  function Fresh(o0: nat): Acc {
    Acc(Vec(0.0, 0.0, 0.0), 0, 0, 0, 0, 0, o0)
  }

  function AddTo(acc: Acc, p: Point): Acc {
    Acc(Vec(acc.sum.x + p.at.x, acc.sum.y + p.at.y, acc.sum.z + p.at.z),
        acc.r + p.r, acc.g + p.g, acc.b + p.b, acc.i + p.i, acc.n + 1, acc.o0)
  }

  function Mean(acc: Acc): Vec
    requires acc.n > 0
  {
    Vec(acc.sum.x / acc.n as real, acc.sum.y / acc.n as real, acc.sum.z / acc.n as real)
  }

  function AddPoint(voxelOf: Vec -> Cell, vm: VoxelMap, p: Point, o0: nat): VoxelMap {
    var key := voxelOf(p.at);
    if key in vm.at then
      VoxelMap(vm.keys, vm.at[key := AddTo(vm.at[key], p)])
    else
      VoxelMap(vm.keys + [key], vm.at[key := AddTo(Fresh(o0), p)])
  }

  function AddPoints(voxelOf: Vec -> Cell, vm: VoxelMap, ps: seq<Point>, o0: nat): VoxelMap {
    if |ps| == 0 then vm
    else AddPoint(voxelOf, AddPoints(voxelOf, vm, ps[..|ps| - 1], o0), ps[|ps| - 1], o0)
  }

  /** Forget the observation baselines, keeping keys, order, sums and hit counts. */
  function Strip(vm: VoxelMap): VoxelMap {
    VoxelMap(vm.keys, map k | k in vm.at :: vm.at[k].(o0 := 0))
  }

  // ---------------------------------------------------------------- insertion order

  /** The key sequence lists each key of the map exactly once. */
  ghost predicate Wf(vm: VoxelMap) {
    && (forall k :: k in vm.keys <==> k in vm.at)
    && (forall i, j :: 0 <= i < j < |vm.keys| ==> vm.keys[i] != vm.keys[j])
  }

  /** Fusion never reorders or drops a voxel: the old key sequence is a prefix of the new one. */
  lemma {:induction false} AddPointsAppendOnly(voxelOf: Vec -> Cell, vm: VoxelMap, ps: seq<Point>, o0: nat)
    requires Wf(vm)
    ensures Wf(AddPoints(voxelOf, vm, ps, o0))
    ensures vm.keys <= AddPoints(voxelOf, vm, ps, o0).keys
    ensures forall k :: k in vm.at ==>
      && k in AddPoints(voxelOf, vm, ps, o0).at
      && AddPoints(voxelOf, vm, ps, o0).at[k].o0 == vm.at[k].o0
      && AddPoints(voxelOf, vm, ps, o0).at[k].n >= vm.at[k].n
    decreases |ps|
  {
    if |ps| > 0 {
      AddPointsAppendOnly(voxelOf, vm, ps[..|ps| - 1], o0);
    }
  }

  /** Sums do not depend on the baselines carried along. */
  lemma {:induction false} AddPointsStripped(voxelOf: Vec -> Cell, a: VoxelMap, b: VoxelMap, ps: seq<Point>, o: nat,
                                             o': nat)
    requires Strip(a) == Strip(b)
    ensures Strip(AddPoints(voxelOf, a, ps, o)) == Strip(AddPoints(voxelOf, b, ps, o'))
    decreases |ps|
  {
    if |ps| > 0 {
      var init, p := ps[..|ps| - 1], ps[|ps| - 1];
      AddPointsStripped(voxelOf, a, b, init, o, o');
      AddPointStripped(voxelOf, AddPoints(voxelOf, a, init, o), AddPoints(voxelOf, b, init, o'), p, o, o');
    }
  }

  lemma AddPointStripped(voxelOf: Vec -> Cell, a: VoxelMap, b: VoxelMap, p: Point, o: nat, o': nat)
    requires Strip(a) == Strip(b)
    ensures Strip(AddPoint(voxelOf, a, p, o)) == Strip(AddPoint(voxelOf, b, p, o'))
  {
    var key := voxelOf(p.at);
    assert a.at.Keys == Strip(a).at.Keys && b.at.Keys == Strip(b).at.Keys;
    var a1, b1 := AddPoint(voxelOf, a, p, o), AddPoint(voxelOf, b, p, o');
    forall k | k in a1.at
      ensures Strip(a1).at[k] == Strip(b1).at[k]
    {
      assert k in a.at ==> Strip(a).at[k] == Strip(b).at[k];
      assert k != key ==> a1.at[k] == a.at[k] && b1.at[k] == b.at[k];
    }
    assert Strip(a1).at == Strip(b1).at;
  }

  // ---------------------------------------------------------------- the .acc sidecar

  /** The records written to a chunk's accumulator file: the accumulators in map order, without keys. */
  function Save(vm: VoxelMap): seq<Acc> {
    seq(|vm.keys|, i requires 0 <= i < |vm.keys| =>
      if vm.keys[i] in vm.at then vm.at[vm.keys[i]] else Fresh(0))
  }

  /** Re-key loaded accumulators by their mean; a record without samples is rejected. */
  function Load(voxelOf: Vec -> Cell, accs: seq<Acc>): Option<VoxelMap> {
    if |accs| == 0 then Some(EMPTY)
    else
      var acc := accs[|accs| - 1];
      match Load(voxelOf, accs[..|accs| - 1])
      case None => None
      case Some(vm) =>
        if acc.n == 0 then None
        else
          var key := voxelOf(Mean(acc));
          Some(VoxelMap(if key in vm.at then vm.keys else vm.keys + [key], vm.at[key := acc]))
  }

  ghost predicate Fits(voxelOf: Vec -> Cell, acc: Acc, key: Cell) {
    acc.n > 0 && voxelOf(Mean(acc)) == key
  }

  /** The mean of points of one cell stays in the cell. */
  ghost predicate Stable(voxelOf: Vec -> Cell) {
    && (forall p: Point, o: nat :: Fits(voxelOf, AddTo(Fresh(o), p), voxelOf(p.at)))
    && (forall acc, p: Point :: Fits(voxelOf, acc, voxelOf(p.at)) ==> Fits(voxelOf, AddTo(acc, p), voxelOf(p.at)))
  }

  ghost predicate WellKeyed(voxelOf: Vec -> Cell, vm: VoxelMap) {
    Wf(vm) && forall k :: k in vm.at ==> Fits(voxelOf, vm.at[k], k)
  }

  lemma {:induction false} AddPointsWellKeyed(voxelOf: Vec -> Cell, vm: VoxelMap, ps: seq<Point>, o0: nat)
    requires Stable(voxelOf) && WellKeyed(voxelOf, vm)
    ensures WellKeyed(voxelOf, AddPoints(voxelOf, vm, ps, o0))
    decreases |ps|
  {
    if |ps| > 0 {
      AddPointsWellKeyed(voxelOf, vm, ps[..|ps| - 1], o0);
      var prev, p := AddPoints(voxelOf, vm, ps[..|ps| - 1], o0), ps[|ps| - 1];
      var next := AddPoint(voxelOf, prev, p, o0);
      forall k | k in next.at
        ensures Fits(voxelOf, next.at[k], k)
      {
        if k == voxelOf(p.at) {
          assert k !in prev.at ==> next.at[k] == AddTo(Fresh(o0), p);
        } else {
          assert next.at[k] == prev.at[k];
        }
      }
    }
  }

  /** Adding the same points never hides a difference: what is equal afterwards was equal before. */
  lemma {:induction false} AddPointsCancel(voxelOf: Vec -> Cell, a: VoxelMap, b: VoxelMap, ps: seq<Point>, o: nat,
                                           o': nat)
    requires Stable(voxelOf) && WellKeyed(voxelOf, a) && WellKeyed(voxelOf, b)
    requires Strip(AddPoints(voxelOf, a, ps, o)) == Strip(AddPoints(voxelOf, b, ps, o'))
    ensures Strip(a) == Strip(b)
    decreases |ps|
  {
    if |ps| > 0 {
      var init := ps[..|ps| - 1];
      AddPointsWellKeyed(voxelOf, a, init, o);
      AddPointsWellKeyed(voxelOf, b, init, o');
      AddPointCancel(voxelOf, AddPoints(voxelOf, a, init, o), AddPoints(voxelOf, b, init, o'), ps[|ps| - 1], o, o');
      AddPointsCancel(voxelOf, a, b, init, o, o');
    }
  }

  ghost predicate Sampled(vm: VoxelMap) {
    Wf(vm) && forall k :: k in vm.at ==> vm.at[k].n > 0
  }

  lemma AddPointCancel(voxelOf: Vec -> Cell, a: VoxelMap, b: VoxelMap, p: Point, o: nat, o': nat)
    requires Sampled(a) && Sampled(b)
    requires Strip(AddPoint(voxelOf, a, p, o)) == Strip(AddPoint(voxelOf, b, p, o'))
    ensures Strip(a) == Strip(b)
  {
    StripEqual(AddPoint(voxelOf, a, p, o), AddPoint(voxelOf, b, p, o'));
    StripEqual(a, b);
    hide Strip;
    var key := voxelOf(p.at);
    if key in a.at {
      assert AddPoint(voxelOf, a, p, o).at[key].n > 1;
      assert key in b.at;
      AddToCancel(a.at[key], b.at[key], p);
    } else {
      assert AddPoint(voxelOf, a, p, o).at[key].n == 1;
      assert key !in b.at;
      assert (a.keys + [key])[..|a.keys|] == a.keys && (b.keys + [key])[..|b.keys|] == b.keys;
    }
    hide AddTo;
    assert a.keys == b.keys;
    forall k | k in a.at && k != key ensures k in b.at && a.at[k].(o0 := 0) == b.at[k].(o0 := 0) {
      assert k in a.keys;
      assert AddPoint(voxelOf, a, p, o).at[k] == a.at[k] && AddPoint(voxelOf, b, p, o').at[k] == b.at[k];
    }
  }

  lemma AddToCancel(a: Acc, b: Acc, p: Point)
    ensures AddTo(a, p).(o0 := 0) == AddTo(b, p).(o0 := 0) ==> a.(o0 := 0) == b.(o0 := 0)
  {
  }

  lemma StripEqual(a: VoxelMap, b: VoxelMap)
    ensures Strip(a) == Strip(b) <==>
              a.keys == b.keys && a.at.Keys == b.at.Keys && forall k :: k in a.at ==>
                    a.at[k].(o0 := 0) == b.at[k].(o0 := 0)
  {
    assert a.at.Keys == Strip(a).at.Keys && b.at.Keys == Strip(b).at.Keys;
    if Strip(a) == Strip(b) {
      forall k | k in a.at ensures a.at[k].(o0 := 0) == b.at[k].(o0 := 0) {
        assert Strip(a).at[k] == Strip(b).at[k];
      }
    } else if a.keys == b.keys && a.at.Keys == b.at.Keys {
      assert Strip(a).at != Strip(b).at;
    }
  }

  /** Evicting a chunk and loading it back is the identity: same keys, same order, same sums. */
  lemma ReloadIdentity(voxelOf: Vec -> Cell, vm: VoxelMap)
    requires WellKeyed(voxelOf, vm)
    ensures Load(voxelOf, Save(vm)) == Some(vm)
  {
    LoadPrefix(voxelOf, vm, |vm.keys|);
    assert Save(vm)[..|vm.keys|] == Save(vm);
    var loaded := Load(voxelOf, Save(vm)).value;
    assert loaded.keys == vm.keys;
    assert loaded.at == vm.at;
  }

  lemma {:induction false} LoadPrefix(voxelOf: Vec -> Cell, vm: VoxelMap, n: nat)
    requires WellKeyed(voxelOf, vm) && n <= |vm.keys|
    ensures Load(voxelOf, Save(vm)[..n]).Some?
    ensures var got := Load(voxelOf, Save(vm)[..n]).value;
            && got.keys == vm.keys[..n]
            && (forall k :: k in got.at <==> k in vm.keys[..n])
            && (forall k :: k in got.at ==> k in vm.at && got.at[k] == vm.at[k])
  {
    if n > 0 {
      LoadPrefix(voxelOf, vm, n - 1);
      LoadNext(voxelOf, vm, n - 1, Load(voxelOf, Save(vm)[..n - 1]).value);
    }
  }

  lemma LoadNext(voxelOf: Vec -> Cell, vm: VoxelMap, n: nat, got: VoxelMap)
    requires WellKeyed(voxelOf, vm) && n < |vm.keys| && Load(voxelOf, Save(vm)[..n]) == Some(got)
    requires got.keys == vm.keys[..n] && (forall k :: k in got.at <==> k in vm.keys[..n])
    ensures Load(voxelOf, Save(vm)[..n + 1])
         == Some(VoxelMap(vm.keys[..n + 1], got.at[vm.keys[n] := vm.at[vm.keys[n]]]))
  {
    var k := vm.keys[n];
    assert Save(vm)[..n + 1][..n] == Save(vm)[..n];
    assert vm.keys[..n + 1] == vm.keys[..n] + [k];
    assert k in vm.keys;
    assert k in vm.at && Fits(voxelOf, vm.at[k], k);
    assert Save(vm)[..n + 1][n] == vm.at[k];
    assert k !in vm.keys[..n];
  }

  // ---------------------------------------------------------------- grids

  function FloorDiv(x: real, size: real): int
    requires size > 0.0
  {
    (x / size).Floor
  }

  function CellOf(at: Vec, size: real): Cell
    requires size > 0.0
  {
    Cell(FloorDiv(at.x, size), FloorDiv(at.y, size), FloorDiv(at.z, size))
  }

  /** The voxel grid with edge `size` as a first-class function. */
  function Grid(size: real): Vec -> Cell
    requires size > 0.0
  {
    (at: Vec) => CellOf(at, size)
  }

  /** A coordinate lies in cell c exactly when it is in the half-open interval [c*size, (c+1)*size). */
  lemma FloorDivIs(x: real, size: real, c: int)
    requires size > 0.0
    ensures FloorDiv(x, size) == c <==> c as real * size <= x < (c + 1) as real * size
  {
    var q, lo, hi := x / size, c as real, (c + 1) as real;
    assert q.Floor == c <==> lo <= q < hi;
    assert x == q * size;
    MulOrder(lo, q, size);
    MulOrder(hi, q, size);
    assert lo * size <= x <==> lo <= q;
    assert hi * size <= x <==> hi <= q;
  }

  lemma MulOrder(a: real, b: real, size: real)
    requires size > 0.0
    ensures a <= b <==> a * size <= b * size
  {
    MulMono(a, b, size);
    MulMono(b, a, size);
  }

  lemma MulMono(a: real, b: real, size: real)
    requires size > 0.0
    ensures a <= b ==> a * size <= b * size
    ensures a < b ==> a * size < b * size
  {
    assert (b - a) * size == b * size - a * size;
  }

  lemma Quotient(a: real, s: real, k: real)
    requires k > 0.0
    ensures a <= s / k <==> a * k <= s
  {
    var q := s / k;
    assert s == q * k;
    MulOrder(a, q, k);
  }

  /** Adding one more point of an interval to `count` points whose mean is in it keeps the mean in it. */
  lemma WeightedStays(lo: real, hi: real, sum: real, x: real, count: real)
    requires count > 0.0 && lo <= sum / count < hi && lo <= x < hi
    ensures lo <= (sum + x) / (count + 1.0) < hi
  {
    Quotient(lo, sum, count);
    Quotient(hi, sum, count);
    Quotient(lo, sum + x, count + 1.0);
    Quotient(hi, sum + x, count + 1.0);
    assert lo * (count + 1.0) == lo * count + lo;
    assert hi * (count + 1.0) == hi * count + hi;
  }

  lemma MeanStaysInCell(sum: real, x: real, n: nat, size: real)
    requires size > 0.0 && n > 0
    requires FloorDiv(sum / n as real, size) == FloorDiv(x, size)
    ensures FloorDiv((sum + x) / (n + 1) as real, size) == FloorDiv(x, size)
  {
    var c := FloorDiv(x, size);
    FloorDivIs(sum / n as real, size, c);
    FloorDivIs(x, size, c);
    WeightedStays(c as real * size, (c + 1) as real * size, sum, x, n as real);
    assert n as real + 1.0 == (n + 1) as real;
    FloorDivIs((sum + x) / (n + 1) as real, size, c);
  }

  lemma GridIsStable(size: real)
    requires size > 0.0
    ensures Stable(Grid(size))
  {
    var voxelOf := Grid(size);
    forall acc, p: Point | Fits(voxelOf, acc, voxelOf(p.at))
      ensures Fits(voxelOf, AddTo(acc, p), voxelOf(p.at))
    {
      MeanStaysInCell(acc.sum.x, p.at.x, acc.n, size);
      MeanStaysInCell(acc.sum.y, p.at.y, acc.n, size);
      MeanStaysInCell(acc.sum.z, p.at.z, acc.n, size);
    }
    forall p: Point, o: nat
      ensures Fits(voxelOf, AddTo(Fresh(o), p), voxelOf(p.at))
    {
      var acc := AddTo(Fresh(o), p);
      assert acc.sum == p.at;
      assert Mean(acc) == p.at;
    }
  }
}
