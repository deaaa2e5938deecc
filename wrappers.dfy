/** Small helper types shared by the model. */
module Wrappers {

  /** A value that may be absent: stands for a C# reference that may be null. */
  datatype Option<+T> = None | Some(value: T)

  /**
   * The position of the first element of `s` that satisfies `p`, as `List<T>.Find`
   * and a `foreach` with an early `return`/`break` select it.
   */
  function FindFirst<T>(s: seq<T>, p: T -> bool): (r: Option<nat>)
    ensures r.Some? ==> r.value < |s| && p(s[r.value])
    ensures r.Some? ==> forall j :: 0 <= j < r.value ==> !p(s[j])
    ensures r.None? ==> forall j :: 0 <= j < |s| ==> !p(s[j])
  {
    if |s| == 0 then None
    else if p(s[0]) then Some(0)
    else match FindFirst(s[1..], p)
      case None => None
      case Some(k) => Some(k + 1)
  }
}
