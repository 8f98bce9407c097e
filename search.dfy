/** First-match linear search, the shape shared by the scans over message parts and headers. */
module Search {
  import opened Wrappers

  /** The index of the first element of `s` that satisfies `p`, or `None` when no element does. */
  function FirstWhere<T>(s: seq<T>, p: T -> bool): (r: Option<nat>)
    ensures r.Some? ==> r.value < |s| && p(s[r.value])
    ensures r.Some? ==> forall j :: 0 <= j < r.value ==> !p(s[j])
    ensures r.None? <==> forall j :: 0 <= j < |s| ==> !p(s[j])
  {
    if |s| == 0 then None
    else if p(s[0]) then Some(0)
    else
      match FirstWhere(s[1..], p)
      case Some(k) => Some(k + 1)
      case None => None
  }

  /** An index that satisfies `p` and has no satisfying element before it is the one `FirstWhere` finds. */
  lemma FirstWhereIsFirst<T>(s: seq<T>, p: T -> bool, k: nat)
    requires k < |s| && p(s[k])
    requires forall j :: 0 <= j < k ==> !p(s[j])
    ensures FirstWhere(s, p) == Some(k)
  {
  }

  /** Elements after the first match are never inspected: appending to `s` does not change the answer. */
  lemma FirstWhereIgnoresSuffix<T>(s: seq<T>, t: seq<T>, p: T -> bool)
    requires FirstWhere(s, p).Some?
    ensures FirstWhere(s + t, p) == FirstWhere(s, p)
  {
    var k := FirstWhere(s, p).value;
    forall j | 0 <= j < k
      ensures !p((s + t)[j])
    {
      assert (s + t)[j] == s[j];
    }
    assert (s + t)[k] == s[k];
    FirstWhereIsFirst(s + t, p, k);
  }
}
