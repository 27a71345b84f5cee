/** Linear search over sequences, as `Array.prototype.find` does it. */
module Lookup {
  import opened Wrappers

  /** The first element of `s` that satisfies `p`, or `None` when no element does. */
  function Find<T>(s: seq<T>, p: T -> bool): (r: Option<T>)
    ensures r.None? <==> forall i :: 0 <= i < |s| ==> !p(s[i])
    ensures r.Some? ==> exists k :: 0 <= k < |s| && s[k] == r.value && p(s[k]) && (forall j :: 0 <= j < k ==> !p(s[j]))
    decreases |s|
  {
    if |s| == 0 then None
    else if p(s[0]) then Some(s[0])
    else
      var r := Find(s[1..], p);
      assert forall i :: 1 <= i < |s| ==> s[i] == s[1..][i - 1];
      r
  }
}
