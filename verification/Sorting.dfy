/** Sorting by an order that may leave elements tied; like the source's sort, it promises nothing about ties. */
module Sorting {

  ghost predicate TotalOrder<T(!new)>(le: (T, T) -> bool) {
    && (forall a, b :: le(a, b) || le(b, a))
    && (forall a, b, c :: le(a, b) && le(b, c) ==> le(a, c))
  }

  predicate Ordered<T>(s: seq<T>, le: (T, T) -> bool) {
    forall i, j :: 0 <= i < j < |s| ==> le(s[i], s[j])
  }

  lemma OrderedInsert<T(!new)>(s: seq<T>, at: nat, x: T, le: (T, T) -> bool)
    requires TotalOrder(le) && Ordered(s, le) && at <= |s|
    requires at > 0 ==> le(s[at - 1], x)
    requires at < |s| ==> le(x, s[at])
    ensures Ordered(s[..at] + [x] + s[at..], le)
  {
  }

  method InsertInOrder<T(!new)>(s: seq<T>, x: T, le: (T, T) -> bool) returns (r: seq<T>)
    requires TotalOrder(le) && Ordered(s, le)
    ensures multiset(r) == multiset(s) + multiset{x} && Ordered(r, le)
  {
    hide Ordered;
    assert forall a, b :: le(a, b) || le(b, a);
    var at := |s|;
    while at > 0 && !le(s[at - 1], x)
      invariant 0 <= at <= |s|
      invariant at < |s| ==> le(x, s[at])
    {
      at := at - 1;
    }
    OrderedInsert(s, at, x, le);
    hide TotalOrder;
    r := s[..at] + [x] + s[at..];
    assert s == s[..at] + s[at..];
  }

  method SortBy<T(!new)>(s: seq<T>, le: (T, T) -> bool) returns (sorted: seq<T>)
    requires TotalOrder(le)
    ensures multiset(sorted) == multiset(s) && Ordered(sorted, le)
  {
    hide Ordered, TotalOrder;
    sorted := [];
    OrderedEmpty(le);
    for i := 0 to |s|
      invariant multiset(sorted) == multiset(s[..i]) && Ordered(sorted, le)
    {
      assert s[..i + 1] == s[..i] + [s[i]];
      sorted := InsertInOrder(sorted, s[i], le);
    }
    assert s[..|s|] == s;
  }

  lemma OrderedEmpty<T>(le: (T, T) -> bool)
    ensures Ordered([], le)
  {
  }

  lemma SameElements<T>(a: seq<T>, b: seq<T>)
    requires multiset(a) == multiset(b)
    ensures |a| == |b|
    ensures forall i :: 0 <= i < |a| ==> a[i] in b
    ensures forall i :: 0 <= i < |b| ==> b[i] in a
  {
    assert |multiset(a)| == |multiset(b)|;
    forall i | 0 <= i < |a| ensures a[i] in b { assert a[i] in multiset(a); }
    forall i | 0 <= i < |b| ensures b[i] in a { assert b[i] in multiset(b); }
  }
}
