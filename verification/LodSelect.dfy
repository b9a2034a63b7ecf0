/** Choosing what a viewer sees of a chunk: the frustum test and the level of detail. */
module LodSelect {
  import opened Voxels
  import opened Lod

  /** An inward-facing plane: points with n . p + d >= 0 are inside. */
  datatype Plane = Plane(n: Vec, d: real)

  datatype Aabb = Aabb(min: Vec, max: Vec)

  predicate Keeps(plane: Plane, p: Vec) {
    plane.n.x * p.x + plane.n.y * p.y + plane.n.z * p.z + plane.d >= 0.0
  }

  predicate ContainsPoint(frustum: seq<Plane>, p: Vec) {
    forall i :: 0 <= i < |frustum| ==> Keeps(frustum[i], p)
  }

  /** The corner of the box farthest along the plane's normal. */
  function Farthest(plane: Plane, box: Aabb): Vec {
    Vec(if plane.n.x >= 0.0 then box.max.x else box.min.x,
        if plane.n.y >= 0.0 then box.max.y else box.min.y,
        if plane.n.z >= 0.0 then box.max.z else box.min.z)
  }

  method ContainsAabb(frustum: seq<Plane>, box: Aabb) returns (keep: bool)
    ensures keep <==> forall i :: 0 <= i < |frustum| ==>
              var n, far := frustum[i].n, Farthest(frustum[i], box);
              n.x * far.x + n.y * far.y + n.z * far.z + frustum[i].d >= 0.0
  {
    for i := 0 to |frustum|
      invariant forall j :: 0 <= j < i ==> Keeps(frustum[j], Farthest(frustum[j], box))
    {
      if !Keeps(frustum[i], Farthest(frustum[i], box)) { return false; }
    }
    return true;
  }

  predicate InBox(box: Aabb, p: Vec) {
    box.min.x <= p.x <= box.max.x && box.min.y <= p.y <= box.max.y && box.min.z <= p.z <= box.max.z
  }

  lemma AxisFarthest(n: real, lo: real, hi: real, p: real, far: real)
    requires lo <= p <= hi && far == if n >= 0.0 then hi else lo
    ensures n * p <= n * far
  {
    if n >= 0.0 {
      assert n * (hi - p) >= 0.0;
      assert n * (hi - p) == n * hi - n * p;
    } else {
      assert -n * (p - lo) >= 0.0;
      assert -n * (p - lo) == n * lo - n * p;
    }
  }

  /**
   * The box test is conservative, plane by plane: it rejects a box at a plane exactly when every
   * point of the box is behind that plane.
   */
  lemma RejectsOnlyUnseen(plane: Plane, box: Aabb)
    requires InBox(box, box.min)
    ensures Keeps(plane, Farthest(plane, box)) <==> exists p :: InBox(box, p) && Keeps(plane, p)
  {
    var corner := Farthest(plane, box);
    assert InBox(box, corner);
    forall p | InBox(box, p) && Keeps(plane, p)
      ensures Keeps(plane, corner)
    {
      FarthestIsFarther(plane, box, p);
    }
  }

  lemma FarthestIsFarther(plane: Plane, box: Aabb, p: Vec)
    requires InBox(box, p) && Keeps(plane, p)
    ensures Keeps(plane, Farthest(plane, box))
  {
    var n, c := plane.n, Farthest(plane, box);
    FarthestIs(plane, box);
    hide Farthest;
    AxisFarthest(n.x, box.min.x, box.max.x, p.x, c.x);
    AxisFarthest(n.y, box.min.y, box.max.y, p.y, c.y);
    AxisFarthest(n.z, box.min.z, box.max.z, p.z, c.z);
    SumsCompare(n.x * p.x, n.y * p.y, n.z * p.z, n.x * c.x, n.y * c.y, n.z * c.z, plane.d);
  }

  lemma FarthestIs(plane: Plane, box: Aabb)
    ensures Farthest(plane, box).x == if plane.n.x >= 0.0 then box.max.x else box.min.x
    ensures Farthest(plane, box).y == if plane.n.y >= 0.0 then box.max.y else box.min.y
    ensures Farthest(plane, box).z == if plane.n.z >= 0.0 then box.max.z else box.min.z
  {
  }

  lemma SumsCompare(a: real, b: real, c: real, a': real, b': real, c': real, d: real)
    requires a <= a' && b <= b' && c <= c' && a + b + c + d >= 0.0
    ensures a' + b' + c' + d >= 0.0
  {
  }

  /** So a box holding a visible point is never culled. */
  lemma VisibleBoxIsKept(frustum: seq<Plane>, box: Aabb, p: Vec)
    requires InBox(box, p) && ContainsPoint(frustum, p)
    ensures forall i :: 0 <= i < |frustum| ==> Keeps(frustum[i], Farthest(frustum[i], box))
  {
    forall i | 0 <= i < |frustum|
      ensures Keeps(frustum[i], Farthest(frustum[i], box))
    {
      RejectsOnlyUnseen(frustum[i], box);
    }
  }

  // ---------------------------------------------------------------- the level

  /** Two to an integer power. */
  function Pow(e: int): (r: real)
    ensures r > 0.0
    decreases if e < 0 then -e else e
  {
    if e >= 0 then Pow2(e) as real else 1.0 / Pow2(-e) as real
  }

  /** e is the integer part of the binary logarithm of a positive ratio. */
  ghost predicate FloorLog2(ratio: real, e: int) {
    Pow(e) <= ratio < Pow(e + 1)
  }

  lemma PowDoubles(e: int)
    ensures Pow(e + 1) == 2.0 * Pow(e)
  {
    if e < 0 {
      assert Pow2(-e) == 2 * Pow2(-e - 1);
    }
  }

  lemma {:induction false} PowRises(a: int, b: int)
    requires a <= b
    ensures Pow(a) <= Pow(b) && (a < b ==> 2.0 * Pow(a) <= Pow(b))
    decreases b - a
  {
    if a < b {
      PowRises(a, b - 1);
      PowDoubles(b - 1);
      if a == b - 1 { PowDoubles(a); }
    }
  }

  /**
   * The level whose edge is the coarsest at most the desired one. `exponent` is the integer part of
   * the ratio's binary logarithm, which matters only when the ratio is positive.
   */
  function LevelForVoxel(desired: real, ladder: Ladder, exponent: int): nat
    requires WellFormed(ladder)
  {
    var finest := ladder.numLevels - 1;
    if !(desired / ladder.fuseVoxelMeters > 0.0) then finest
    else if finest - exponent < 0 then 0
    else if finest - exponent > finest then finest
    else finest - exponent
  }

  /** A level's edge is the finest one doubled once per level above it. */
  lemma EdgeIs(ladder: Ladder, level: nat)
    requires WellFormed(ladder) && level < ladder.numLevels
    ensures LevelVoxelMeters(ladder, level) == ladder.fuseVoxelMeters * Pow(ladder.numLevels - 1 - level)
  {
  }

  lemma EdgeFits(ladder: Ladder, level: nat, desired: real)
    requires WellFormed(ladder) && level < ladder.numLevels
    ensures LevelVoxelMeters(ladder, level) <= desired
            <==> Pow(ladder.numLevels - 1 - level) <= desired / ladder.fuseVoxelMeters
  {
    EdgeIs(ladder, level);
    Quotient(Pow(ladder.numLevels - 1 - level), desired, ladder.fuseVoxelMeters);
  }

  lemma PowerFits(ratio: real, e: int, k: int)
    requires FloorLog2(ratio, e)
    ensures Pow(k) <= ratio <==> k <= e
  {
    if k <= e { PowRises(k, e); } else { PowRises(e + 1, k); }
  }

  /** The chosen level is the coarsest that is fine enough, or the finest when none is. */
  lemma LevelIsCoarsestThatFits(desired: real, ladder: Ladder, exponent: int)
    requires WellFormed(ladder)
    requires desired / ladder.fuseVoxelMeters > 0.0 ==> FloorLog2(desired / ladder.fuseVoxelMeters, exponent)
    ensures var chosen := LevelForVoxel(desired, ladder, exponent);
            && chosen < ladder.numLevels
            && (forall level :: 0 <= level < ladder.numLevels && LevelVoxelMeters(ladder, level) <= desired ==>
                  chosen <= level)
            && (LevelVoxelMeters(ladder, chosen) <= desired
                || (chosen == ladder.numLevels - 1
                    && forall level :: 0 <= level < ladder.numLevels ==> LevelVoxelMeters(ladder, level) > desired))
  {
    var finest, ratio := ladder.numLevels - 1, desired / ladder.fuseVoxelMeters;
    forall level | 0 <= level < ladder.numLevels
      ensures LevelVoxelMeters(ladder, level) <= desired <==> ratio > 0.0 && finest - level <= exponent
    {
      EdgeFits(ladder, level, desired);
      if ratio > 0.0 { PowerFits(ratio, exponent, finest - level); }
    }
    hide LevelVoxelMeters, Pow;
  }

  /** The voxel edge that renders at the target size at a distance, never nearer than the near plane. */
  function DesiredVoxel(perMeter: real, near: real, distance: real): real {
    perMeter * (if distance > near then distance else near)
  }

  lemma DesiredGrows(perMeter: real, near: real, d: real, d': real)
    requires perMeter > 0.0 && d <= d'
    ensures DesiredVoxel(perMeter, near, d) <= DesiredVoxel(perMeter, near, d')
  {
    MulMono(if d > near then d else near, if d' > near then d' else near, perMeter);
  }

  /** Nearer than the near plane counts as at it; beyond it, the edge grows as the distance does. */
  lemma DesiredFollowsDistance(perMeter: real, near: real, d: real)
    ensures d <= near ==> DesiredVoxel(perMeter, near, d) == DesiredVoxel(perMeter, near, near)
    ensures d >= near ==> DesiredVoxel(perMeter, near, d) * near == DesiredVoxel(perMeter, near, near) * d
    ensures DesiredVoxel(perMeter, 1.0, 1.0) == perMeter
  {
    assert perMeter * d * near == perMeter * near * d;
  }

  /** At a fixed view the level never rises with distance. */
  lemma LevelFallsWithDistance(ladder: Ladder, perMeter: real, near: real, d: real, d': real, e: int, e': int)
    requires WellFormed(ladder) && perMeter > 0.0 && d <= d'
    requires var r := DesiredVoxel(perMeter, near, d) / ladder.fuseVoxelMeters; r > 0.0 ==> FloorLog2(r, e)
    requires var r := DesiredVoxel(perMeter, near, d') / ladder.fuseVoxelMeters; r > 0.0 ==> FloorLog2(r, e')
    ensures LevelForVoxel(DesiredVoxel(perMeter, near, d'), ladder, e')
            <= LevelForVoxel(DesiredVoxel(perMeter, near, d), ladder, e)
  {
    DesiredGrows(perMeter, near, d, d');
    hide DesiredVoxel, LevelVoxelMeters, FloorLog2;
    var a, b := DesiredVoxel(perMeter, near, d), DesiredVoxel(perMeter, near, d');
    LevelIsCoarsestThatFits(a, ladder, e);
    LevelIsCoarsestThatFits(b, ladder, e');
    hide LevelForVoxel;
    var chosen := LevelForVoxel(a, ladder, e);
    if LevelVoxelMeters(ladder, chosen) <= a {
      assert LevelVoxelMeters(ladder, chosen) <= b;
    }
  }
}
