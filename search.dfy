/** Linear search over a sequence, as Kotlin's `firstOrNull`, `find` and a `for` loop with `break`. */
module Search {
  import opened Wrappers

  /** The position of the first element of `s` satisfying `p`, or `None` when there is none. */
  function FirstIndex<T>(s: seq<T>, p: T -> bool): (r: Option<nat>)
    ensures r.Some? ==> r.value < |s| && p(s[r.value])
    ensures r.Some? ==> forall q :: 0 <= q < r.value ==> !p(s[q])
    ensures r.None? ==> forall q :: 0 <= q < |s| ==> !p(s[q])
  {
    if |s| == 0 then None
    else if p(s[0]) then Some(0)
    else match FirstIndex(s[1..], p)
      case None => None
      case Some(k) => Some(k + 1)
  }

  /** A position that satisfies `p` with no earlier one is the position `FirstIndex` finds. */
  lemma FirstIndexAt<T>(s: seq<T>, p: T -> bool, i: nat)
    requires i < |s| && p(s[i])
    requires forall q :: 0 <= q < i ==> !p(s[q])
    ensures FirstIndex(s, p) == Some(i)
  {
  }
}
