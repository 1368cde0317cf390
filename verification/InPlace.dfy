/** The in-place filter the repositories use: it overwrites the front of a buffer with the elements it keeps. */
module InPlace {

  function Filter<T(==)>(s: seq<T>, keep: T -> bool): (r: seq<T>)
    ensures |r| <= |s|
    ensures forall i :: 0 <= i < |r| ==> r[i] in s && keep(r[i])
    ensures forall i :: 0 <= i < |s| && keep(s[i]) ==> s[i] in r
  {
    if s == [] then []
    else
      var n := |s| - 1;
      Filter(s[..n], keep) + if keep(s[n]) then [s[n]] else []
  }

  lemma FilterEmpty<T>(keep: T -> bool)
    ensures Filter([], keep) == []
  {
  }

  lemma FilterSnoc<T>(s: seq<T>, x: T, keep: T -> bool)
    ensures Filter(s + [x], keep) == Filter(s, keep) + if keep(x) then [x] else []
  {
  }

  /**
   Reading never falls behind writing, so sharing the buffer is safe: the front becomes the filtered list, in order.
   */
  method FilterInPlace<T>(a: array<T>, keep: T -> bool) returns (m: nat)
    modifies a
    ensures m <= a.Length
    ensures a[..m] == Filter(old(a[..]), keep)
    ensures forall i :: m <= i < a.Length ==> a[i] == old(a[i])
  {
    m := 0;
    for i := 0 to a.Length
      invariant m <= i
      invariant a[..m] == Filter(old(a[..i]), keep)
      invariant forall j :: m <= j < a.Length ==> a[j] == old(a[j])
    {
      assert old(a[..i + 1]) == old(a[..i]) + [old(a[i])];
      assert old(a[..i + 1])[..i] == old(a[..i]);
      if keep(a[i]) {
        a[m] := a[i];
        m := m + 1;
      }
    }
    assert old(a[..a.Length]) == old(a[..]);
  }
}
