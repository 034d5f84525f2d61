/** The one store query shape the controller relies on beyond filtering:
    `findOne`/`findById` return the first document, in store order, that
    satisfies the filter. */
module DocumentQueries {
  import opened JsValues

  /** Index of the first element of `s` satisfying `p`, or None when there is none. */
  function FindFirst<T>(s: seq<T>, p: T -> bool): (r: Option<nat>)
    ensures r.Some? ==> r.value < |s| && p(s[r.value])
    ensures r.Some? ==> forall j :: 0 <= j < r.value ==> !p(s[j])
    ensures r.None? <==> forall j :: 0 <= j < |s| ==> !p(s[j])
  {
    if s == [] then None
    else if p(s[0]) then Some(0)
    else match FindFirst(s[1..], p)
      case None => None
      case Some(i) => Some(i + 1)
  }

  /** Appending an element leaves an earlier match where it was, and makes
      the new element the first match when there was none. */
  lemma {:induction false} FindFirstAppend<T>(s: seq<T>, x: T, p: T -> bool)
    ensures FindFirst(s + [x], p) ==
      if FindFirst(s, p).Some? then FindFirst(s, p) else if p(x) then Some(|s|) else None
  {
    var r := FindFirst(s + [x], p);
    assert forall j :: 0 <= j < |s| ==> (s + [x])[j] == s[j];
    if FindFirst(s, p).Some? {
      var i := FindFirst(s, p).value;
      assert (s + [x])[i] == s[i];
    } else if p(x) {
      assert (s + [x])[|s|] == x;
    }
  }
}
