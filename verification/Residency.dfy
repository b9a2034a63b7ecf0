/** Order bookkeeping for the resident chunks: least recently used first. */
module Residency {
  import opened LogHistory

  /** `order` lists each key of `active` exactly once. */
  ghost predicate Lists<V>(order: seq<Key>, active: map<Key, V>) {
    && (forall k :: k in order <==> k in active)
    && Distinct(order)
  }

  ghost predicate Distinct(order: seq<Key>) {
    forall i, j :: 0 <= i < j < |order| ==> order[i] != order[j]
  }

  function Without(order: seq<Key>, k: Key): seq<Key> {
    if |order| == 0 then []
    else
      var rest := Without(order[..|order| - 1], k);
      if order[|order| - 1] == k then rest else rest + [order[|order| - 1]]
  }

  lemma {:induction false} WithoutKeeps(order: seq<Key>, k: Key)
    requires Distinct(order)
    ensures Distinct(Without(order, k))
    ensures forall q :: q in Without(order, k) <==> q in order && q != k
    ensures k in order ==> |Without(order, k)| == |order| - 1
    ensures k !in order ==> Without(order, k) == order
    decreases |order|
  {
    if |order| > 0 {
      var init, last := order[..|order| - 1], order[|order| - 1];
      WithoutKeeps(init, k);
      assert order == init + [last];
      assert last !in init;
      assert last !in Without(init, k);
    }
  }

  lemma WithoutLists<V>(order: seq<Key>, active: map<Key, V>, k: Key)
    requires Lists(order, active) && k in active
    ensures Lists(Without(order, k), active - {k}) && |Without(order, k)| == |order| - 1
  {
    WithoutKeeps(order, k);
  }

  /** Removing the first element of the order is what dropping it from the list does. */
  lemma {:induction false} WithoutAt(order: seq<Key>, i: nat)
    requires Distinct(order) && i < |order|
    ensures Without(order, order[i]) == order[..i] + order[i + 1..]
    decreases |order|
  {
    var init := order[..|order| - 1];
    if i < |init| {
      WithoutAt(init, i);
      assert init[i] == order[i] && init[..i] == order[..i];
      assert order[i + 1..] == init[i + 1..] + [order[|order| - 1]];
    } else {
      WithoutKeeps(init, order[i]);
      assert order[..i] + order[i + 1..] == init;
    }
  }

  /** Every chunk of the restricted set comes after every chunk outside it. */
  ghost predicate Behind(order: seq<Key>, keys: set<Key>) {
    forall i, j :: 0 <= i < j < |order| && order[i] in keys ==> order[j] in keys
  }

  lemma RefreshKeepsBehind(order: seq<Key>, keys: set<Key>, k: Key)
    requires Distinct(order) && Behind(order, keys) && k in keys
    ensures Behind(Without(order, k) + [k], keys)
  {
    if i :| 0 <= i < |order| && order[i] == k {
      WithoutAt(order, i);
    } else {
      WithoutKeeps(order, k);
    }
  }

  function Keys(order: seq<Key>): set<Key> {
    set k | k in order
  }

  lemma ListedKeys<V>(order: seq<Key>, active: map<Key, V>)
    requires Lists(order, active)
    ensures Keys(order) == active.Keys
  {
  }

  lemma {:induction false} DistinctSize(order: seq<Key>)
    requires Distinct(order)
    ensures |Keys(order)| == |order|
    decreases |order|
  {
    if |order| > 0 {
      var init := order[..|order| - 1];
      DistinctSize(init);
      assert Keys(order) == Keys(init) + {order[|order| - 1]};
    }
  }

  /** A distinct list of members of a set is no longer than the set. */
  lemma AtMost(order: seq<Key>, keys: set<Key>)
    requires Distinct(order) && forall k :: k in order ==> k in keys
    ensures |order| <= |keys|
  {
    DistinctSize(order);
    Subset(Keys(order), keys);
  }

  lemma Subset<T>(a: set<T>, b: set<T>)
    requires a <= b
    ensures |a| <= |b|
  {
    assert b == a + (b - a);
  }

  /** The last `max` elements: what remains after evicting from the front down to the budget. */
  function Newest(order: seq<Key>, max: nat): seq<Key> {
    if |order| <= max then order else order[|order| - max..]
  }

  lemma DropOldest(order: seq<Key>)
    requires Distinct(order) && |order| > 0
    ensures Without(order, order[0]) == order[1..]
  {
    WithoutAt(order, 0);
  }

  /** `after` is `before` with the keys of `moved` taken out and put at the end in order. */
  ghost predicate MovedToBack(before: seq<Key>, after: seq<Key>, moved: seq<Key>) {
    && Distinct(after) && Keys(after) == Keys(before)
    && |moved| <= |after| && after[|after| - |moved|..] == moved
    && (forall keys :: Keys(moved) <= keys && Behind(before, keys) ==> Behind(after, keys))
  }

  lemma MovedNone(order: seq<Key>)
    requires Distinct(order)
    ensures MovedToBack(order, order, [])
  {
  }

  lemma {:induction false} WithoutBefore(a: seq<Key>, b: seq<Key>, k: Key)
    requires k !in b
    ensures Without(a + b, k) == Without(a, k) + b
    decreases |b|
  {
    if |b| == 0 {
      assert a + b == a && Without(a, k) + b == Without(a, k);
    } else {
      var init, last := b[..|b| - 1], b[|b| - 1];
      WithoutBefore(a, init, k);
      WithoutOther(a + init, last, k);
      hide Without;
      assert b == init + [last];
      assert a + b == a + init + [last] && Without(a, k) + b == Without(a, k) + init + [last];
    }
  }

  lemma WithoutOther(order: seq<Key>, last: Key, k: Key)
    requires last != k
    ensures Without(order + [last], k) == Without(order, k) + [last]
  {
    assert (order + [last])[..|order|] == order;
  }

  lemma MovedOneMore(before: seq<Key>, order: seq<Key>, touched: seq<Key>, i: nat)
    requires i < |touched| && Distinct(touched) && touched[i] in order
    requires MovedToBack(before, order, touched[..i])
    ensures MovedToBack(before, Without(order, touched[i]) + [touched[i]], touched[..i + 1])
  {
    hide Without, Behind;
    var k, moved := touched[i], touched[..i];
    assert k !in moved;
    hide Distinct;
    var next := Without(order, k) + [k];
    MovedLast(order, moved, k);
    assert touched[..i + 1] == moved + [k];
    assert k in touched[..i + 1] && Keys(moved) <= Keys(touched[..i + 1]);
    RefreshMoved(before, order, moved, k);
  }

  /** The moved keys stay at the end, with one more behind them. */
  lemma MovedLast(order: seq<Key>, moved: seq<Key>, k: Key)
    requires Distinct(order) && k in order && k !in moved
    requires |moved| <= |order| && order[|order| - |moved|..] == moved
    ensures var next := Without(order, k) + [k];
            && Distinct(next) && Keys(next) == Keys(order) && |next| == |order|
            && next[|next| - |moved| - 1..] == moved + [k]
  {
    WithoutKeeps(order, k);
    var head := order[..|order| - |moved|];
    assert order == head + moved;
    WithoutBefore(head, moved, k);
    assert Without(order, k) + [k] == Without(head, k) + (moved + [k]);
  }

  /** Moving one more key to the back keeps every set behind that contains it and those moved before. */
  lemma RefreshMoved(before: seq<Key>, order: seq<Key>, moved: seq<Key>, k: Key)
    requires MovedToBack(before, order, moved) && Distinct(order)
    ensures forall keys :: Keys(moved) <= keys && k in keys && Behind(before, keys) ==>
              Behind(Without(order, k) + [k], keys)
  {
    hide Without;
    forall keys | Keys(moved) <= keys && k in keys && Behind(before, keys)
      ensures Behind(Without(order, k) + [k], keys)
    {
      RefreshKeepsBehind(order, keys, k);
    }
  }

  // ---------------------------------------------------------------- dropping chunks unwritten

  /** The order without the dropped keys. */
  function Outside(order: seq<Key>, dropped: set<Key>): seq<Key> {
    if |order| == 0 then []
    else
      var rest := Outside(order[..|order| - 1], dropped);
      if order[|order| - 1] in dropped then rest else rest + [order[|order| - 1]]
  }

  lemma {:induction false} OutsideIs(order: seq<Key>, dropped: set<Key>)
    requires Distinct(order)
    ensures Distinct(Outside(order, dropped))
    ensures forall k :: k in Outside(order, dropped) <==> k in order && k !in dropped
    decreases |order|
  {
    if |order| > 0 {
      var init, last := order[..|order| - 1], order[|order| - 1];
      OutsideIs(init, dropped);
      assert order == init + [last];
      assert last !in init;
      assert last !in Outside(init, dropped);
    }
  }

  lemma OutsideLists<V>(order: seq<Key>, active: map<Key, V>, dropped: set<Key>)
    requires Lists(order, active)
    ensures Lists(Outside(order, dropped), active - dropped)
    ensures forall k :: k in Outside(order, dropped) ==> k !in dropped
  {
    OutsideIs(order, dropped);
  }

  /** Evicting down to the budget spares the keys that are behind all others, when they fit. */
  lemma NewestSpares(order: seq<Key>, keys: set<Key>, max: nat)
    requires Distinct(order) && Behind(order, keys) && |Keys(order) * keys| <= max
    ensures Keys(order) * keys <= Keys(Newest(order, max))
  {
    if |order| > max {
      var d := |order| - max;
      forall k | k in Keys(order) * keys
        ensures k in Newest(order, max)
      {
        var i :| 0 <= i < |order| && order[i] == k;
        if i < d {
          var tail := order[i..];
          forall q | q in tail ensures q in Keys(order) * keys {
            var j :| 0 <= j < |tail| && tail[j] == q;
            assert q == order[i + j];
          }
          AtMost(tail, Keys(order) * keys);
          assert false;
        }
        assert Newest(order, max)[i - d] == k;
      }
    }
  }

  lemma NewestKeepsBehind(order: seq<Key>, keys: set<Key>, max: nat)
    requires Distinct(order) && Behind(order, keys)
    ensures Distinct(Newest(order, max)) && Behind(Newest(order, max), keys)
    ensures Keys(Newest(order, max)) <= Keys(order) && |Newest(order, max)| <= max
  {
  }
}
