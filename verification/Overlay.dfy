/** Culling a batch to a view and thinning it in place. */
module Overlay {
  import opened Voxels
  import opened LodSelect

  /** Rows of a batch, strictly increasing. */
  ghost predicate Rising(rows: seq<nat>) {
    forall i, j :: 0 <= i < j < |rows| ==> rows[i] < rows[j]
  }

  /** Where an even stride over `inside` rows puts the j-th of `cap` kept ones. */
  function Stride(j: nat, inside: nat, cap: nat): nat
    requires cap > 0
  {
    j * inside / cap
  }

  lemma StrideIsAhead(j: nat, inside: nat, cap: nat)
    requires 0 < cap < inside && j < cap
    ensures j <= Stride(j, inside, cap) < inside
  {
    var p := j * inside;
    assert j * cap <= p by { Monotone(j, cap, inside); }
    assert (j + 1) * inside <= cap * inside by { Monotone(inside, j + 1, cap); }
    assert p + inside == (j + 1) * inside;
    DivideBetween(p, cap, j, inside);
  }

  lemma Monotone(k: nat, a: nat, b: nat)
    requires a <= b
    ensures k * a <= k * b && a * k <= b * k
  {
  }

  lemma DivideBetween(p: nat, cap: nat, low: nat, high: nat)
    requires cap > 0 && low * cap <= p < high * cap
    ensures low <= p / cap < high
  {
    var q := p / cap;
    assert q * cap <= p < (q + 1) * cap;
    if q < low { Monotone(cap, q + 1, low); }
    if q >= high { Monotone(cap, high, q); }
  }

  lemma StrideRises(j: nat, k: nat, inside: nat, cap: nat)
    requires 0 < cap < inside && j < k
    ensures Stride(j, inside, cap) < Stride(k, inside, cap)
  {
    var q := Stride(j, inside, cap);
    assert q * cap <= j * inside;
    Monotone(inside, j + 1, k);
    assert (j + 1) * inside == j * inside + inside;
    assert (q + 1) * cap == q * cap + cap;
    var s := Stride(k, inside, cap);
    assert k * inside < (s + 1) * cap;
    if s <= q { Monotone(cap, s + 1, q + 1); }
  }

  /** Keep every (inside / cap)-th of the first `inside` rows, writing over the front of the array as it is read. */
  method Thin(keep: array<nat>, inside: nat, cap: nat)
    requires 0 < cap < inside <= keep.Length && Rising(keep[..inside])
    modifies keep
    ensures Rising(keep[..cap])
    ensures forall j :: 0 <= j < cap ==>
              Stride(j, inside, cap) < inside && keep[j] == old(keep[..inside])[Stride(j, inside, cap)]
  {
    ghost var rows := keep[..inside];
    for j := 0 to cap
      invariant forall i :: 0 <= i < j ==> Stride(i, inside, cap) < inside && keep[i] == rows[Stride(i, inside, cap)]
      invariant forall i :: j <= i < inside ==> keep[i] == rows[i]
    {
      StrideIsAhead(j, inside, cap);
      keep[j] := keep[Stride(j, inside, cap)];
    }
    forall i, j | 0 <= i < j < cap
      ensures keep[i] < keep[j]
    {
      StrideRises(i, j, inside, cap);
    }
  }

  /** The rows inside the view, in order. */
  function Inside(frustum: seq<Plane>, world: seq<Vec>, n: nat): seq<nat>
    requires n <= |world|
  {
    if n == 0 then []
    else Inside(frustum, world, n - 1) + if ContainsPoint(frustum, world[n - 1]) then [n - 1] else []
  }

  lemma {:induction false} InsideRises(frustum: seq<Plane>, world: seq<Vec>, n: nat)
    requires n <= |world|
    ensures Rising(Inside(frustum, world, n)) && |Inside(frustum, world, n)| <= n
    ensures forall i :: i in Inside(frustum, world, n) <==> 0 <= i < n && ContainsPoint(frustum, world[i])
  {
    if n > 0 {
      InsideRises(frustum, world, n - 1);
      var before := Inside(frustum, world, n - 1);
      assert forall i :: 0 <= i < |before| ==> before[i] in before;
    }
  }

  /** The rows in view, gathered at the front of an array with room for all. */
  method KeepInside(frustum: seq<Plane>, world: seq<Vec>) returns (keep: array<nat>, inside: nat)
    ensures fresh(keep) && inside <= keep.Length == |world| && keep[..inside] == Inside(frustum, world, |world|)
  {
    keep := new nat[|world|](_ => 0);
    inside := 0;
    for i := 0 to |world|
      invariant inside <= i && keep[..inside] == Inside(frustum, world, i)
    {
      if ContainsPoint(frustum, world[i]) {
        keep[inside] := i;
        inside := inside + 1;
        assert keep[..inside] == keep[..inside - 1] + [i];
      }
    }
  }

  /** The j-th of `cap` evenly spread rows: the last one at or before j parts in `cap` of the way. */
  ghost predicate EvenPick(all: seq<nat>, row: nat, j: nat, cap: nat) {
    exists s :: 0 <= s < |all| && all[s] == row && s * cap <= j * |all| < (s + 1) * cap
  }

  lemma StrideIsEven(all: seq<nat>, rows: seq<nat>, cap: nat)
    requires 0 < cap < |all| && |rows| == cap
    requires forall j :: 0 <= j < cap ==> Stride(j, |all|, cap) < |all| && rows[j] == all[Stride(j, |all|, cap)]
    ensures forall j :: 0 <= j < cap ==> EvenPick(all, rows[j], j, cap)
  {
    forall j | 0 <= j < cap ensures EvenPick(all, rows[j], j, cap) {
      var s := Stride(j, |all|, cap);
      assert s * cap <= j * |all| < (s + 1) * cap;
    }
  }

  /**
   * The rows of a batch to send to a viewer: those in its view, thinned to its cap when it set one.
   * They are in order, all in view, and as many as the cap allows.
   */
  method SelectRows(frustum: seq<Plane>, world: seq<Vec>, cap: nat) returns (rows: seq<nat>)
    ensures Rising(rows) && forall i :: i in rows ==> 0 <= i < |world| && ContainsPoint(frustum, world[i])
    ensures forall i, j :: i in rows && 0 <= j < |frustum| ==>
              frustum[j].n.x * world[i].x + frustum[j].n.y * world[i].y + frustum[j].n.z * world[i].z + frustum[j].d
              >= 0.0
    ensures var all := Inside(frustum, world, |world|);
            && |rows| == (if 0 < cap < |all| then cap else |all|)
            && (forall j :: 0 <= j < |rows| ==>
                 if 0 < cap < |all| then Stride(j, |all|, cap) < |all| && rows[j] == all[Stride(j, |all|, cap)]
                     else rows[j] == all[j])
            && (0 < cap < |all| ==> forall j :: 0 <= j < cap ==> EvenPick(all, rows[j], j, cap))
  {
    hide EvenPick, Inside;
    var keep, inside := KeepInside(frustum, world);
    ghost var all := Inside(frustum, world, |world|);
    InsideRises(frustum, world, |world|);
    var count := inside;
    if cap > 0 && inside > cap {
      count := cap;
      Thin(keep, inside, cap);
    }
    rows := keep[..count];
    forall i | i in rows ensures i in all {
      var j :| 0 <= j < |rows| && rows[j] == i;
      if 0 < cap < |all| { assert all[Stride(j, |all|, cap)] == i; } else { assert all[j] == i; }
    }
    if 0 < cap < |all| { StrideIsEven(all, rows, cap); }
  }
}
