/** Optional values and a first-match search, shared by the classifier, the
    fallback generator and the turn arbiter. */
module Wrappers {

  datatype Option<+T> = None | Some(value: T) {

    /** The value in Some, or a default for None (Python's `dict.get(k, d)`). */
    function GetOr(default: T): T
    {
      match this
      case Some(v) => v
      case None => default
    }
  }

  /** The index of the first element of `xs` that satisfies `p`, or None when
      no element does.  Every ordered cascade in the model (the intent rules,
      the fallback keyword groups) is evaluated with this search. */
  function FirstWhere<T>(xs: seq<T>, p: T -> bool): (r: Option<nat>)
    ensures r.Some? ==> r.value < |xs| && p(xs[r.value])
    ensures r.Some? ==> forall j :: 0 <= j < r.value ==> !p(xs[j])
    ensures r.None? <==> forall j :: 0 <= j < |xs| ==> !p(xs[j])
    decreases |xs|
  {
    if |xs| == 0 then None
    else if p(xs[0]) then Some(0)
    else
      match FirstWhere(xs[1..], p)
      case None => None
      case Some(k) => Some(k + 1)
  }

  /** The first match is the only index that satisfies `p` with nothing
      satisfying it earlier. */
  lemma FirstWhereUnique<T>(xs: seq<T>, p: T -> bool, k: nat)
    requires k < |xs| && p(xs[k])
    requires forall j :: 0 <= j < k ==> !p(xs[j])
    ensures FirstWhere(xs, p) == Some(k)
  {
  }
}
