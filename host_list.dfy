/**
 * The host's list mutation for a move request: `items.add(to, items.removeAt(from))`
 * (app/.../ReorderableColumnExample.kt:62).
 */
module HostList {

  /** Removes the element at `from` and reinserts it at `to` of the shortened list. */
  function MoveItem<T>(xs: seq<T>, from: nat, to: nat): (r: seq<T>)
    requires from < |xs| && to < |xs|
    ensures |r| == |xs|
  {
    var rest := xs[..from] + xs[from + 1..];
    rest[..to] + [xs[from]] + rest[to..]
  }

  /** Where every element of `xs` ends up: the moved one at `to`, the ones in between shifted by one. */
  lemma MoveItemAt<T>(xs: seq<T>, from: nat, to: nat, k: nat)
    requires from < |xs| && to < |xs| && k < |xs|
    ensures MoveItem(xs, from, to)[k] ==
      if k == to then xs[from]
      else if from < to && from <= k < to then xs[k + 1]
      else if to < from && to < k <= from then xs[k - 1]
      else xs[k]
  {
    var rest := xs[..from] + xs[from + 1..];
    assert |rest| == |xs| - 1;
    assert forall j :: 0 <= j < |rest| ==> rest[j] == if j < from then xs[j] else xs[j + 1];
    var r := MoveItem(xs, from, to);
    assert r == rest[..to] + [xs[from]] + rest[to..];
    if k < to {
      assert r[k] == rest[k];
    } else if k > to {
      assert r[k] == rest[k - 1];
    }
  }

  /** After the move, the element the user dragged sits at the new dragged index `to`. */
  lemma {:induction false} MovedElementAtTarget<T>(xs: seq<T>, from: nat, to: nat)
    requires from < |xs| && to < |xs|
    ensures MoveItem(xs, from, to)[to] == xs[from]
  {
    MoveItemAt(xs, from, to, to);
  }

  /** A move only reorders: no element is lost or duplicated. */
  lemma MoveItemPermutes<T>(xs: seq<T>, from: nat, to: nat)
    requires from < |xs| && to < |xs|
    ensures multiset(MoveItem(xs, from, to)) == multiset(xs)
  {
    var rest := xs[..from] + xs[from + 1..];
    assert xs == xs[..from] + [xs[from]] + xs[from + 1..];
    assert multiset(xs) == multiset(rest) + multiset{xs[from]};
    assert rest == rest[..to] + rest[to..];
    assert multiset(MoveItem(xs, from, to)) == multiset(rest[..to]) + multiset{xs[from]} + multiset(rest[to..]);
  }

  /** Moving back from `to` to `from` restores the list: a move request has an exact inverse. */
  lemma MoveItemInverse<T>(xs: seq<T>, from: nat, to: nat)
    requires from < |xs| && to < |xs|
    ensures MoveItem(MoveItem(xs, from, to), to, from) == xs
  {
    var ys := MoveItem(xs, from, to);
    var zs := MoveItem(ys, to, from);
    forall k | 0 <= k < |xs|
      ensures zs[k] == xs[k]
    {
      MoveItemAt(ys, to, from, k);
      if k == from {
        MoveItemAt(xs, from, to, to);
      } else if to < from && to <= k < from {
        MoveItemAt(xs, from, to, k + 1);
      } else if from < to && from < k <= to {
        MoveItemAt(xs, from, to, k - 1);
      } else {
        MoveItemAt(xs, from, to, k);
      }
    }
  }
}
