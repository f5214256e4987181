/** The first-match search that JavaScript's `Array.prototype.find` performs, here keyed
    on an integer id. */
module Search {
  import opened Wrappers

  /** Position of the first element whose key is `id`, or `None` when no element has it. */
  function FirstIndex<T>(s: seq<T>, key: T -> int, id: int): (r: Option<nat>)
    ensures r.None? <==> forall k :: 0 <= k < |s| ==> key(s[k]) != id
    ensures r.Some? ==> r.value < |s| && key(s[r.value]) == id
    ensures r.Some? ==> forall k :: 0 <= k < r.value ==> key(s[k]) != id
  {
    if s == [] then None
    else if key(s[0]) == id then Some(0)
    else
      match FirstIndex(s[1..], key, id)
      case None => None
      case Some(k) => Some(k + 1)
  }
}
