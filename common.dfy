/** Small value wrappers shared by every composable model. */
module Common {

  /** A field that the backend may leave out (`undefined` or `null` in the client). */
  datatype Option<+T> = None | Some(value: T) {
    /** `x || d` and `x ?? d` for a field whose present values are all truthy. */
    function GetOr(default: T): T {
      match this
      case Some(v) => v
      case None => default
    }
  }

  /**
   * How one awaited request resolved: the promise either rejected (`Failed`)
   * or resolved with the response body's `data`.
   */
  datatype Response<+T> = Failed | Ok(data: T)

  /** `s.find(p)`: the first element satisfying `p`, or none when no element does. */
  function FirstWhere<T>(s: seq<T>, p: T -> bool): (r: Option<T>)
    ensures r.None? <==> forall k :: 0 <= k < |s| ==> !p(s[k])
    ensures r.Some? ==> p(r.value) && r.value in s
    ensures forall k :: 0 <= k < |s| && p(s[k]) && (forall j :: 0 <= j < k ==> !p(s[j])) ==> r == Some(s[k])
  {
    if s == [] then None
    else if p(s[0]) then Some(s[0])
    else
      var rest := FirstWhere(s[1..], p);
      assert forall k :: 1 <= k < |s| ==> s[1..][k - 1] == s[k];
      rest
  }
}
