/**
 * What re-fusing a log under corrected poses must give, and how a partial rebuild's bookkeeping
 * relates to it.
 */
module RebuildSpec {
  import opened Voxels
  import opened Poses
  import opened LogHistory
  import opened StoreMachine

  // ---------------------------------------------------------------- a head start in the counters

  /** An existing cell with no points: where a partial rebuild restarts a chunk it already knew. */
  const RESET := Content(EMPTY, 0, true)

  /** The same voxels in the same order, and the same opportunities since each voxel's birth. */
  ghost predicate SameSinceBirth(a: Content, b: Content) {
    && Strip(a.vox) == Strip(b.vox)
    && a.vox.at.Keys == b.vox.at.Keys
    && forall v :: v in a.vox.at ==> a.opportunities - a.vox.at[v].o0 == b.opportunities - b.vox.at[v].o0
  }

  /** `b` is `a` with every count `d` higher. */
  ghost predicate Shifted(a: VoxelMap, b: VoxelMap, d: nat) {
    a.keys == b.keys && a.at.Keys == b.at.Keys && forall v :: v in a.at ==> b.at[v] == a.at[v].(o0 := a.at[v].o0 + d)
  }

  lemma {:induction false} AddPointsShifted(voxelOf: Vec -> Cell, a: VoxelMap, b: VoxelMap, ps: seq<Point>, o: nat,
                                            d: nat)
    requires Shifted(a, b, d)
    ensures Shifted(AddPoints(voxelOf, a, ps, o), AddPoints(voxelOf, b, ps, o + d), d)
    decreases |ps|
  {
    if |ps| > 0 {
      AddPointsShifted(voxelOf, a, b, ps[..|ps| - 1], o, d);
    }
  }

  /** Counting from a cell that already existed runs ahead by a constant. */
  lemma {:induction false} HeadStart(g: Setting, k: Key, log: seq<Batch>) returns (d: nat)
    ensures var a, b := FoldAll(g, k, log), FoldFrom(g, k, RESET, log);
            && b.known && Shifted(a.vox, b.vox, d)
            && (a.known ==> b.opportunities == a.opportunities + d)
            && (!a.known ==> a == NOTHING && b.vox == EMPTY)
    decreases |log|
  {
    if |log| == 0 {
      d := 0;
    } else {
      var init, last := log[..|log| - 1], log[|log| - 1];
      d := HeadStart(g, k, init);
      var a, b := FoldAll(g, k, init), FoldFrom(g, k, RESET, init);
      if a.known {
        AddPointsShifted(g.voxelOf, a.vox, b.vox, LandedIn(g, k, last), Observe(g, k, a, last).opportunities, d);
      } else {
        d := b.opportunities;
        AddPointsShifted(g.voxelOf, EMPTY, EMPTY, LandedIn(g, k, last), 1, d);
      }
    }
  }

  /** So restarting from a known cell changes neither voxels nor the counts since each voxel's birth. */
  lemma ResetKeepsRatios(g: Setting, k: Key, log: seq<Batch>)
    ensures SameSinceBirth(FoldFrom(g, k, RESET, log), FoldAll(g, k, log))
  {
    var d := HeadStart(g, k, log);
    var a, b := FoldAll(g, k, log), FoldFrom(g, k, RESET, log);
    assert Strip(a.vox).at == Strip(b.vox).at;
  }

  // ---------------------------------------------------------------- chunks a correction leaves alone

  /** Settings that differ only in how they correct one session's poses. */
  ghost predicate DiffersIn(g: Setting, g': Setting, session: SessionId) {
    && g' == g.(effective := g'.effective)
    && forall s: SessionId, n: nat, p: Pose :: s != session ==> g'.effective(s, n, p) == g.effective(s, n, p)
  }

  /** No batch brings different points to the chunk. */
  ghost predicate SamePoints(g: Setting, g': Setting, k: Key, log: seq<Batch>) {
    forall i :: 0 <= i < |log| ==> LandedIn(g, k, log[i]) == LandedIn(g', k, log[i])
  }

  /** Then its voxels are the same, though a moved pose may have counted it differently. */
  lemma {:induction false} SamePointsSameVoxels(g: Setting, g': Setting, k: Key, log: seq<Batch>, upTo: nat)
    requires g'.voxelOf == g.voxelOf && SamePoints(g, g', k, log)
    ensures Strip(History(g, k, log, upTo).vox) == Strip(History(g', k, log, upTo).vox)
    ensures History(g, k, log, upTo).known == History(g', k, log, upTo).known
    decreases |log|
  {
    if |log| > 0 {
      var init, last := log[..|log| - 1], log[|log| - 1];
      assert SamePoints(g, g', k, init);
      SamePointsSameVoxels(g, g', k, init, upTo);
      var a, b := History(g, k, init, upTo), History(g', k, init, upTo);
      AddPointsStripped(g.voxelOf, a.vox, b.vox, LandedIn(g, k, last),
                        Observe(g, k, a, last).opportunities, Observe(g', k, b, last).opportunities);
    }
  }

  /** A correction of another session changes nothing at all. */
  lemma {:induction false} OtherSessionSame(g: Setting, g': Setting, session: SessionId, k: Key, log: seq<Batch>,
                                            upTo: nat)
    requires DiffersIn(g, g', session) && k.session != session
    ensures History(g, k, log, upTo) == History(g', k, log, upTo)
    ensures forall i :: 0 <= i < |log| ==> LandedIn(g, k, log[i]) == LandedIn(g', k, log[i])
    decreases |log|
  {
    if |log| > 0 {
      OtherSessionSame(g, g', session, k, log[..|log| - 1], upTo);
      forall i | 0 <= i < |log| ensures LandedIn(g, k, log[i]) == LandedIn(g', k, log[i]) {
        SameLanded(g, g', PoseOf(g, k.session, log[i]), log[i].points, k.chunk);
      }
    }
  }

  lemma {:induction false} SameLanded(g: Setting, g': Setting, pose: Pose, points: seq<Point>, chunk: Cell)
    requires g' == g.(effective := g'.effective)
    ensures Landed(g, pose, points, chunk) == Landed(g', pose, points, chunk)
    ensures Spanned(g, pose, points) == Spanned(g', pose, points)
    decreases |points|
  {
    if |points| > 0 {
      SameLanded(g, g', pose, points[..|points| - 1], chunk);
    }
  }
}
