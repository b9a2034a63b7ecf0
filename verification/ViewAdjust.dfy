/**
 * The opportunity counts of chunks a partial rebuild leaves alone: adjusting them for moved batches
 * against counting them again.
 */
module ViewAdjust {
  import opened Voxels
  import opened LogHistory
  import opened StoreMachine
  import opened RebuildSpec
  import opened ChunkStores
  import opened PartialSpec
  import opened PartialRebuild

  /** Which chunks exist does not depend on where unaffected batches look. */
  lemma {:induction false} KnownSame(g: Setting, g': Setting, k: Key, log: seq<Batch>, n: nat)
    requires SamePoints(g, g', k, log) && n <= |log|
    ensures FoldAll(g, k, log[..n]).known == FoldAll(g', k, log[..n]).known
  {
    if n > 0 {
      KnownSame(g, g', k, log, n - 1);
      assert log[..n][..n - 1] == log[..n - 1];
    }
  }

  /** The count after one more batch. */
  lemma CountStep(g: Setting, k: Key, log: seq<Batch>, n: nat)
    requires n < |log|
    ensures FoldAll(g, k, log[..n + 1]).opportunities
         == FoldAll(g, k, log[..n]).opportunities
            + if Touches(g, k, log[n]) || (FoldAll(g, k, log[..n]).known && InView(g, k, log[n])) then 1 else 0
  {
    assert log[..n + 1][..n] == log[..n];
  }

  lemma {:induction false} CountGrows(g: Setting, k: Key, log: seq<Batch>, n: nat)
    requires n <= |log|
    ensures FoldAll(g, k, log[..n]).opportunities <= FoldAll(g, k, log).opportunities
    decreases |log| - n
  {
    if n < |log| {
      CountStep(g, k, log, n);
      CountGrows(g, k, log, n + 1);
    } else {
      assert log[..n] == log;
    }
  }

  // ---------------------------------------------------------------- what the adjustment misses

  /** A moved batch looks at the chunk as it did before, or the chunk existed when the batch came. */
  predicate Accountable(g: Setting, g': Setting, k: Key, log: seq<Batch>, i: nat)
    requires i < |log|
  {
    FoldAll(g, k, log[..i]).known || InView(g, k, log[i]) == InView(g', k, log[i])
  }

  function One(b: bool): int {
    if b then 1 else 0
  }

  /** Credits less debits for moved batches from before the chunk existed, which never counted for it. */
  function Net(g: Setting, g': Setting, k: Key, log: seq<Batch>, changed: set<nat>, n: nat): int
    requires n <= |log|
  {
    if n == 0 then 0
    else
      Net(g, g', k, log, changed, n - 1) +
      if n - 1 in changed && !Accountable(g, g', k, log, n - 1)
      then One(InView(g', k, log[n - 1])) - One(InView(g, k, log[n - 1])) else 0
  }

  /** How many debits found the count already at zero. */
  function Clamps(g': Setting, session: SessionId, rows: seq<IndexRow>, changed: set<nat>, affected: set<Cell>, n: nat,
                  k: Key, st: Stats): nat
    requires n <= |rows|
  {
    if n == 0 then 0
    else
      var row := rows[n - 1];
      Clamps(g', session, rows, changed, affected, n - 1, k, st) +
      if n - 1 in changed && g'.inView(session, row.fusedPose, k.chunk)
         && !g'.inView(session, g'.effective(session, row.poseSequence, row.loggedPose), k.chunk)
         && Adjusted(g', session, rows, changed, affected, n - 1, k, st).opportunities == 0
      then 1 else 0
  }

  /** What record i adds to the chunk's count. */
  function Gain(g: Setting, k: Key, log: seq<Batch>, i: nat): int
    requires i < |log|
  {
    FoldAll(g, k, log[..i + 1]).opportunities - FoldAll(g, k, log[..i]).opportunities
  }

  /** One index row: what a batch that moved does to the chunk's count under either correction. */
  lemma MovedRow(g: Setting, g': Setting, k: Key, rows: seq<IndexRow>, log: seq<Batch>, changed: set<nat>,
                 affected: set<Cell>, i: nat)
    requires Plan(g, g', k.session, rows, log, changed, affected) && k.chunk !in affected && i < |log|
    ensures |rows| == |log| && FoldAll(g, k, log[..i]).known == FoldAll(g', k, log[..i]).known
    ensures g'.inView(k.session, rows[i].fusedPose, k.chunk) == InView(g, k, log[i])
    ensures g'.inView(k.session, g'.effective(k.session, rows[i].poseSequence, rows[i].loggedPose), k.chunk)
            == InView(g', k, log[i])
    ensures Gain(g', k, log, i) - Gain(g, k, log, i)
         == if i in changed && FoldAll(g, k, log[..i]).known then One(InView(g', k, log[i])) - One(InView(g, k, log[i]))
             else 0
    ensures i in changed && FoldAll(g, k, log[..i]).known && InView(g, k, log[i]) ==> Gain(g, k, log, i) == 1
  {
    UnaffectedSamePoints(g, g', k, rows, log, changed, affected);
    KnownSame(g, g', k, log, i);
    CountStep(g, k, log, i);
    CountStep(g', k, log, i);
    TouchIsSpan(g, k, log[i]);
    TouchIsSpan(g', k, log[i]);
    assert rows[i] == RowFor(g, k.session, log[i], i);
    hide FoldFrom;
  }

  /** The adjusted count part way: the old count, recounted so far, off by the net and the clamps so far. */
  lemma {:induction false} AdjustedPartWay(g: Setting, g': Setting, k: Key, rows: seq<IndexRow>, log: seq<Batch>,
                                           changed: set<nat>,
                                           affected: set<Cell>, st: Stats, n: nat)
    requires Plan(g, g', k.session, rows, log, changed, affected) && k.chunk !in affected && n <= |rows| == |log|
    requires st.opportunities == FoldAll(g, k, log).opportunities
    ensures Adjusted(g', k.session, rows, changed, affected, n, k, st).opportunities
         == FoldAll(g, k, log).opportunities - FoldAll(g, k, log[..n]).opportunities
             + FoldAll(g', k, log[..n]).opportunities
            + Net(g, g', k, log, changed, n) + Clamps(g', k.session, rows, changed, affected, n, k, st)
  {
    if n > 0 {
      AdjustedPartWay(g, g', k, rows, log, changed, affected, st, n - 1);
      MovedRow(g, g', k, rows, log, changed, affected, n - 1);
      hide FoldFrom, Plan;
    } else {
      assert log[..0] == [];
    }
  }

  /**
   * For any set of moved batches and any chunk left alone, adjusting its count is recounting it if
   * and only if the credits and debits for batches from before the chunk existed, and the debits that
   * found nothing to take away, cancel out.
   */
  lemma AdjustedIsRecountIff(g: Setting, g': Setting, k: Key, rows: seq<IndexRow>, log: seq<Batch>, changed: set<nat>,
                             affected: set<Cell>, st: Stats)
    requires Plan(g, g', k.session, rows, log, changed, affected) && k.chunk !in affected
    requires st.opportunities == FoldAll(g, k, log).opportunities
    ensures |rows| == |log|
    ensures Adjusted(g', k.session, rows, changed, affected, |rows|, k, st).opportunities
            == FoldAll(g', k, log).opportunities
            <==> Net(g, g', k, log, changed, |log|) + Clamps(g', k.session, rows, changed, affected, |rows|, k, st) == 0
  {
    PlanSays(g, g', k.session, rows, log, changed, affected);
    AdjustedPartWay(g, g', k, rows, log, changed, affected, st, |rows|);
    assert log[..|log|] == log;
  }

  /** With every moved batch accountable there is nothing to cancel. */
  lemma {:induction false} AccountableBalances(g: Setting, g': Setting, k: Key, rows: seq<IndexRow>, log: seq<Batch>,
                                               changed: set<nat>,
                                               affected: set<Cell>, st: Stats, n: nat)
    requires Plan(g, g', k.session, rows, log, changed, affected) && k.chunk !in affected && n <= |rows| == |log|
    requires st.opportunities == FoldAll(g, k, log).opportunities
    requires forall i :: 0 <= i < |log| && i in changed ==> Accountable(g, g', k, log, i)
    ensures Net(g, g', k, log, changed, n) == 0 && Clamps(g', k.session, rows, changed, affected, n, k, st) == 0
  {
    hide FoldAll, Plan, Adjusted, InView;
    if n > 0 {
      AccountableBalances(g, g', k, rows, log, changed, affected, st, n - 1);
      AdjustedPartWay(g, g', k, rows, log, changed, affected, st, n - 1);
      MovedRow(g, g', k, rows, log, changed, affected, n - 1);
      CountGrows(g, k, log, n);
    }
  }

  /** So a partial rebuild keeps the counts right when every moved batch is accountable. */
  lemma AdjustedIsRecount(g: Setting, g': Setting, k: Key, rows: seq<IndexRow>, log: seq<Batch>, changed: set<nat>,
                          affected: set<Cell>, st: Stats)
    requires Plan(g, g', k.session, rows, log, changed, affected) && k.chunk !in affected
    requires st.opportunities == FoldAll(g, k, log).opportunities
    requires forall i :: 0 <= i < |log| && i in changed ==> Accountable(g, g', k, log, i)
    ensures Adjusted(g', k.session, rows, changed, affected, |rows|, k, st).opportunities
            == FoldAll(g', k, log).opportunities
  {
    AdjustedIsRecountIff(g, g', k, rows, log, changed, affected, st);
    AccountableBalances(g, g', k, rows, log, changed, affected, st, |rows|);
  }

  /** A single moved batch has nothing to cancel against: its accountability decides. */
  lemma OneMoveIsRecountIffAccountable(g: Setting, g': Setting, k: Key, rows: seq<IndexRow>, log: seq<Batch>, i: nat,
                                       affected: set<Cell>, st: Stats)
    requires i < |log| && Plan(g, g', k.session, rows, log, {i}, affected) && k.chunk !in affected
    requires st.opportunities == FoldAll(g, k, log).opportunities > 0
    ensures Adjusted(g', k.session, rows, {i}, affected, |rows|, k, st).opportunities
            == FoldAll(g', k, log).opportunities
            <==> Accountable(g, g', k, log, i)
  {
    AdjustedIsRecountIff(g, g', k, rows, log, {i}, affected, st);
    OneMove(g, g', k, rows, log, affected, st, i, |rows|);
  }

  lemma {:induction false} OneMove(g: Setting, g': Setting, k: Key, rows: seq<IndexRow>, log: seq<Batch>,
                                   affected: set<Cell>,
                                   st: Stats, i: nat, n: nat)
    requires i < |rows| == |log| && n <= |rows| && st.opportunities > 0
    ensures n <= i ==> Adjusted(g', k.session, rows, {i}, affected, n, k, st) == st
    ensures Clamps(g', k.session, rows, {i}, affected, n, k, st) == 0
    ensures Net(g, g', k, log, {i}, n) == 0 <==> n <= i || Accountable(g, g', k, log, i)
  {
    if n > 0 { OneMove(g, g', k, rows, log, affected, st, i, n - 1); }
  }
}
