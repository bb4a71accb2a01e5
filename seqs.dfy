/** `Array.prototype.find`: the first element that satisfies a test, or `undefined`. */
module Seqs {
  import opened Wrappers

  /** The element at `k` passes `test` and no element before it does. */
  ghost predicate FirstMatchAt<T>(s: seq<T>, test: T -> bool, k: int)
  {
    0 <= k < |s| && test(s[k]) && forall j :: 0 <= j < k ==> !test(s[j])
  }

  function FindFirst<T>(s: seq<T>, test: T -> bool): (r: Option<T>)
    ensures r.None? <==> forall i :: 0 <= i < |s| ==> !test(s[i])
    ensures r.Some? ==> exists k :: FirstMatchAt(s, test, k) && s[k] == r.value
  {
    if |s| == 0 then None
    else if test(s[0]) then
      assert FirstMatchAt(s, test, 0);
      Some(s[0])
    else
      var r := FindFirst(s[1..], test);
      FirstMatchInTail(s, test, r);
      r
  }

  lemma FirstMatchInTail<T>(s: seq<T>, test: T -> bool, r: Option<T>)
    requires |s| > 0 && !test(s[0])
    requires r.None? <==> forall i :: 0 <= i < |s[1..]| ==> !test(s[1..][i])
    requires r.Some? ==> exists k :: FirstMatchAt(s[1..], test, k) && s[1..][k] == r.value
    ensures r.None? <==> forall i :: 0 <= i < |s| ==> !test(s[i])
    ensures r.Some? ==> exists k :: FirstMatchAt(s, test, k) && s[k] == r.value
  {
    assert forall i :: 1 <= i < |s| ==> s[i] == s[1..][i - 1];
    if r.Some? {
      var k :| FirstMatchAt(s[1..], test, k) && s[1..][k] == r.value;
      assert FirstMatchAt(s, test, k + 1);
    }
  }

  /** The first match is at index `k` exactly when `s[k]` matches and nothing before it does. */
  lemma {:induction false} FindFirstAt<T>(s: seq<T>, test: T -> bool, k: int)
    requires FirstMatchAt(s, test, k)
    ensures FindFirst(s, test) == Some(s[k])
  {
    if k > 0 {
      assert FirstMatchAt(s[1..], test, k - 1);
      FindFirstAt(s[1..], test, k - 1);
    }
  }

  /** Wherever the first match lies, `FindFirst` returns it. */
  lemma FirstMatchFound<T>(s: seq<T>, test: T -> bool)
    ensures forall k :: FirstMatchAt(s, test, k) ==> FindFirst(s, test) == Some(s[k])
  {
    forall k | FirstMatchAt(s, test, k)
      ensures FindFirst(s, test) == Some(s[k])
    {
      FindFirstAt(s, test, k);
    }
  }
}
