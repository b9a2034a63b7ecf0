/** Pose corrections as fusion applies them, and the concrete geometry the store runs with. */
module PoseCorrections {
  import opened Voxels
  import opened Poses
  import opened LogHistory
  import opened RigidMotion

  datatype Correction = Correction(poseSequence: nat, pose: Pose)

  /** Corrected poses by sequence, and a world-frame move for every pose after the last of them. */
  datatype Corrections = Corrections(poses: seq<Correction>, tail: Option<Pose>)

  /** Sequences strictly increase and every rotation is a unit quaternion, as validation leaves them. */
  ghost predicate Validated(c: Corrections) {
    && (forall i, j :: 0 <= i < j < |c.poses| ==> c.poses[i].poseSequence < c.poses[j].poseSequence)
    && (forall i :: 0 <= i < |c.poses| ==> Unit(c.poses[i].pose.rotation))
    && (c.tail.Some? ==> Unit(c.tail.value.rotation))
  }

  class PoseCorrectionMap {
    const corrections: Corrections
    var bySequence: map<nat, Pose>
    var lastCorrected: int

    ghost predicate Valid() reads this {
      && Validated(corrections)
      && bySequence == Filled(corrections.poses)
      && lastCorrected == if |corrections.poses| > 0 then corrections.poses[|corrections.poses| - 1].poseSequence
          else -1
    }

    constructor (corrections: Corrections)
      requires Validated(corrections)
      ensures Valid() && this.corrections == corrections
    {
      this.corrections := corrections;
      var filled: map<nat, Pose> := map[];
      for i := 0 to |corrections.poses|
        invariant filled == Filled(corrections.poses[..i])
      {
        assert corrections.poses[..i + 1][..i] == corrections.poses[..i];
        filled := filled[corrections.poses[i].poseSequence := corrections.poses[i].pose];
      }
      assert corrections.poses[..|corrections.poses|] == corrections.poses;
      bySequence := filled;
      lastCorrected := if |corrections.poses| > 0 then corrections.poses[|corrections.poses| - 1].poseSequence else -1;
    }

    /**
     * The pose to fuse a batch with. A listed sequence gets its own correction, tail or no tail; the
     * tail moves only sequences past every listed one; any other keeps its logged pose.
     */
    method Apply(poseSequence: nat, logged: Pose) returns (pose: Pose)
      requires Valid()
      ensures pose == Effective(corrections, poseSequence, logged)
      ensures forall i :: 0 <= i < |corrections.poses| && corrections.poses[i].poseSequence == poseSequence ==>
                pose == corrections.poses[i].pose
      ensures var poses := corrections.poses;
              var listed := exists i :: 0 <= i < |poses| && poses[i].poseSequence == poseSequence;
              var past := forall i :: 0 <= i < |poses| ==> poses[i].poseSequence < poseSequence;
              && (!listed && !past ==> pose == logged)
              && (!listed && corrections.tail.None? ==> pose == logged)
              && (past && corrections.tail.Some? ==> pose == ComposePoses(corrections.tail.value, logged))
    {
      FilledHas(corrections.poses, poseSequence);
      PastLast(corrections, poseSequence);
      if poseSequence in bySequence {
        return bySequence[poseSequence];
      }
      if corrections.tail.Some? && poseSequence > lastCorrected {
        return ComposePoses(corrections.tail.value, logged);
      }
      return logged;
    }
  }

  /** The corrections by sequence; a later entry would replace an earlier one. */
  function Filled(poses: seq<Correction>): map<nat, Pose> {
    if |poses| == 0 then map[]
    else Filled(poses[..|poses| - 1])[poses[|poses| - 1].poseSequence := poses[|poses| - 1].pose]
  }

  /** With distinct sequences the map finds exactly each one's own correction. */
  lemma {:induction false} FilledHas(poses: seq<Correction>, s: nat)
    requires forall i, j :: 0 <= i < j < |poses| ==> poses[i].poseSequence < poses[j].poseSequence
    ensures s in Filled(poses) <==> FirstAt(poses, s) < |poses|
    ensures s in Filled(poses) ==> Filled(poses)[s] == poses[FirstAt(poses, s)].pose
    decreases |poses|
  {
    if |poses| > 0 {
      var init, last := poses[..|poses| - 1], poses[|poses| - 1];
      FilledHas(init, s);
      FirstAtInit(poses, s);
    }
  }

  lemma {:induction false} FirstAtInit(poses: seq<Correction>, s: nat)
    requires |poses| > 0
    ensures var init := poses[..|poses| - 1];
            FirstAt(poses, s) == if FirstAt(init, s) < |init| then FirstAt(init, s)
                                 else if poses[|init|].poseSequence == s then |init| else |poses|
    decreases |poses|
  {
    if |poses| > 1 && poses[0].poseSequence != s {
      FirstAtInit(poses[1..], s);
      assert poses[1..][..|poses| - 2] == poses[..|poses| - 1][1..];
    }
  }

  lemma PastLast(c: Corrections, s: nat)
    requires Validated(c)
    ensures (forall j :: 0 <= j < |c.poses| ==> c.poses[j].poseSequence < s)
            <==> |c.poses| == 0 || c.poses[|c.poses| - 1].poseSequence < s
  {
  }

  /** The index of a sequence's correction, or the number of corrections when it has none. */
  function FirstAt(poses: seq<Correction>, poseSequence: nat): (i: nat)
    ensures i <= |poses|
    ensures i < |poses| ==> poses[i].poseSequence == poseSequence
    ensures i == |poses| ==> forall j :: 0 <= j < |poses| ==> poses[j].poseSequence != poseSequence
  {
    if |poses| == 0 || poses[0].poseSequence == poseSequence then 0 else 1 + FirstAt(poses[1..], poseSequence)
  }

  /** Its own correction when there is one, the tail for sequences after all corrections, else the pose as logged. */
  ghost function Effective(c: Corrections, poseSequence: nat, logged: Pose): Pose {
    var i := FirstAt(c.poses, poseSequence);
    if i < |c.poses| then c.poses[i].pose
    else if c.tail.Some? && forall j :: 0 <= j < |c.poses| ==> c.poses[j].poseSequence < poseSequence then
      ComposePoses(c.tail.value, logged)
    else logged
  }

  /** Corrected poses stay rigid. */
  lemma EffectiveIsRigid(c: Corrections, poseSequence: nat, logged: Pose)
    requires Validated(c) && Unit(logged.rotation)
    ensures Unit(Effective(c, poseSequence, logged).rotation)
  {
    if c.tail.Some? { UnitsCompose(c.tail.value.rotation, logged.rotation); }
    hide Unit, Multiply;
  }

  // ---------------------------------------------------------------- the concrete setting

  /** The store's geometry: rigid transforms, the chunk grid and the voxel grid. */
  function Standard(fuseVoxelMeters: real, chunkSizeMeters: real, inView: (SessionId, Pose, Cell) -> bool,
                    effective: (SessionId, nat, Pose) -> Pose): Setting
    requires fuseVoxelMeters > 0.0 && chunkSizeMeters > 0.0
  {
    Setting((pose: Pose, v: Vec) => RotateAndTranslate(pose, v), Grid(chunkSizeMeters), Grid(fuseVoxelMeters), inView,
            effective)
  }

  /** So every result that asks for a stable voxel grid holds of it. */
  lemma StandardIsStable(fuseVoxelMeters: real, chunkSizeMeters: real, inView: (SessionId, Pose, Cell) -> bool,
                         effective: (SessionId, nat, Pose) -> Pose)
    requires fuseVoxelMeters > 0.0 && chunkSizeMeters > 0.0
    ensures Stable(Standard(fuseVoxelMeters, chunkSizeMeters, inView, effective).voxelOf)
  {
    GridIsStable(fuseVoxelMeters);
  }

  /** A payload's points in the world frame. */
  function WorldPoints(g: Setting, pose: Pose, points: seq<Point>): seq<Point> {
    seq(|points|, i requires 0 <= i < |points| => Place(g, pose, points[i]))
  }

  /** Points moved rigidly, colours and all. */
  function Moved(move: Pose, points: seq<Point>): seq<Point> {
    seq(|points|, i requires 0 <= i < |points| => points[i].(at := RotateAndTranslate(move, points[i].at)))
  }

  /**
   * Fusing a batch past the last correction is fusing its raw world points moved by the tail: a live
   * publisher's drifted frame lands in the corrected one.
   */
  lemma TailMovesWorldPoints(c: Corrections, fuse: real, chunk: real, inView: (SessionId, Pose, Cell) -> bool,
                             effective: (SessionId, nat, Pose) -> Pose, session: SessionId, b: Batch)
    requires fuse > 0.0 && chunk > 0.0 && Validated(c) && c.tail.Some? && Unit(b.pose.rotation)
    requires effective(session, b.poseSequence, b.pose) == Effective(c, b.poseSequence, b.pose)
    requires forall i :: 0 <= i < |c.poses| ==> c.poses[i].poseSequence < b.poseSequence
    ensures var g := Standard(fuse, chunk, inView, effective);
            WorldPoints(g, PoseOf(g, session, b), b.points) == Moved(c.tail.value, WorldPoints(g, b.pose, b.points))
  {
    var g := Standard(fuse, chunk, inView, effective);
    assert PoseOf(g, session, b) == ComposePoses(c.tail.value, b.pose);
    forall i | 0 <= i < |b.points|
      ensures WorldPoints(g, PoseOf(g, session, b), b.points)[i]
              == Moved(c.tail.value, WorldPoints(g, b.pose, b.points))[i]
    {
      ComposedPoseIsSequential(c.tail.value, b.pose, b.points[i].at);
      hide ComposePoses, RotateAndTranslate;
    }
  }
}
