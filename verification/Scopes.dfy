/** Scope lists: covering, merging and the parsing of a requested scope. */
module Scopes {
  import opened Prelude

  /** The scopes a list names. */
  function Elems(s: seq<string>): set<string> { set x | x in s }

  lemma ElemsAppend(s: seq<string>, x: string)
    ensures Elems(s + [x]) == Elems(s) + {x}
  {
  }

  /** Every requested scope is among the granted ones. */
  predicate ScopesCover(granted: seq<string>, requested: seq<string>) {
    forall x :: x in requested ==> x in granted
  }

  lemma CoverIsSubset(granted: seq<string>, requested: seq<string>)
    ensures ScopesCover(granted, requested) <==> Elems(requested) <= Elems(granted)
  {
    if Elems(requested) <= Elems(granted) {
      forall x | x in requested ensures x in granted {
        assert x in Elems(requested);
      }
    }
  }

  predicate NoDup(s: seq<string>) {
    forall i, j :: 0 <= i < j < |s| ==> s[i] != s[j]
  }

  /** The byte-wise order of strings. */
  predicate StrLe(a: string, b: string) {
    a == [] || (b != [] && (a[0] < b[0] || (a[0] == b[0] && StrLe(a[1..], b[1..]))))
  }

  predicate Sorted(s: seq<string>) {
    forall i, j :: 0 <= i < j < |s| ==> StrLe(s[i], s[j])
  }

  lemma {:induction false} StrLeTotal(a: string, b: string)
    ensures StrLe(a, b) || StrLe(b, a)
  {
    if a != [] && b != [] && a[0] == b[0] { StrLeTotal(a[1..], b[1..]); }
  }

  lemma {:induction false} StrLeAntisymmetric(a: string, b: string)
    requires StrLe(a, b) && StrLe(b, a)
    ensures a == b
  {
    if a != [] && b != [] {
      StrLeAntisymmetric(a[1..], b[1..]);
      assert a == [a[0]] + a[1..] && b == [b[0]] + b[1..];
    }
  }

  lemma {:induction false} StrLeTransitive(a: string, b: string, c: string)
    requires StrLe(a, b) && StrLe(b, c)
    ensures StrLe(a, c)
  {
    if a != [] && b[0] == a[0] && c[0] == b[0] { StrLeTransitive(a[1..], b[1..], c[1..]); }
  }

  /** Puts x before the first element of s that is not below it. */
  function Insert(x: string, s: seq<string>): (r: seq<string>)
    ensures multiset(r) == multiset(s) + multiset{x}
  {
    if s == [] || StrLe(x, s[0]) then [x] + s
    else
      assert s == [s[0]] + s[1..];
      [s[0]] + Insert(x, s[1..])
  }

  /** What slices.Sort computes: the elements of s in ascending order. */
  function Sort(s: seq<string>): (r: seq<string>)
    ensures multiset(r) == multiset(s)
  {
    if s == [] then []
    else
      assert s == [s[0]] + s[1..];
      Insert(s[0], Sort(s[1..]))
  }

  lemma {:induction false} InsertKeepsSorted(x: string, s: seq<string>)
    requires Sorted(s)
    ensures Sorted(Insert(x, s))
  {
    if s == [] {
    } else if StrLe(x, s[0]) {
      forall j | 0 <= j < |s| ensures StrLe(x, s[j]) {
        if j > 0 { StrLeTransitive(x, s[0], s[j]); }
      }
    } else {
      var t := Insert(x, s[1..]);
      InsertKeepsSorted(x, s[1..]);
      StrLeTotal(x, s[0]);
      forall j | 0 <= j < |t| ensures StrLe(s[0], t[j]) {
        assert t[j] in multiset(t);
        assert t[j] == x || t[j] in s[1..];
      }
    }
  }

  lemma {:induction false} SortIsSorted(s: seq<string>)
    ensures Sorted(Sort(s))
  {
    if s != [] {
      SortIsSorted(s[1..]);
      InsertKeepsSorted(s[0], Sort(s[1..]));
    }
  }

  /** current followed by the requested scopes it lacks, each once. */
  function AppendMissing(current: seq<string>, requested: seq<string>): (r: seq<string>)
    ensures Elems(r) == Elems(current) + Elems(requested)
    ensures NoDup(r) <==> NoDup(current)
    decreases |requested|
  {
    if requested == [] then current
    else
      var last := requested[|requested| - 1];
      var before := AppendMissing(current, requested[..|requested| - 1]);
      assert requested == requested[..|requested| - 1] + [last];
      assert last in before <==> last in Elems(before);
      ElemsAppend(before, last);
      ElemsAppend(requested[..|requested| - 1], last);
      assert forall i :: 0 <= i < |before| ==> (before + [last])[i] == before[i];
      if last in before then before else before + [last]
  }

  function Merge(current: seq<string>, requested: seq<string>): seq<string> {
    Sort(AppendMissing(current, requested))
  }

  lemma {:induction false} NoDupIsMultiset(s: seq<string>)
    ensures NoDup(s) <==> (forall x :: multiset(s)[x] <= 1)
  {
    if s != [] {
      var t := s[1..];
      assert s == [s[0]] + t;
      NoDupIsMultiset(t);
      if NoDup(s) {
        assert NoDup(t) by {
          forall i, j | 0 <= i < j < |t| ensures t[i] != t[j] { assert s[i + 1] != s[j + 1]; }
        }
        assert s[0] !in t;
      } else {
        var i, j :| 0 <= i < j < |s| && s[i] == s[j];
        if i == 0 {
          assert s[0] in t by { assert t[j - 1] == s[0]; }
          assert multiset(s)[s[0]] == 1 + multiset(t)[s[0]];
        } else {
          assert t[i - 1] == t[j - 1];
          var x :| multiset(t)[x] > 1;
          assert multiset(s)[x] >= multiset(t)[x];
        }
      }
    }
  }

  /** Sorting a list without duplicates gives the sorted form of its set. */
  lemma SortIsCanonical(s: seq<string>)
    requires NoDup(s)
    ensures Sorted(Sort(s)) && NoDup(Sort(s)) && forall x :: x in Sort(s) <==> x in s
  {
    SortIsSorted(s);
    NoDupIsMultiset(s);
    NoDupIsMultiset(Sort(s));
    forall x ensures x in Sort(s) <==> x in s {
      assert x in multiset(Sort(s)) <==> x in multiset(s);
    }
  }

  /** Merging is exact set union in sorted form, and free of duplicates exactly when the stored list is. */
  lemma MergeIsSortedUnion(current: seq<string>, requested: seq<string>)
    ensures Sorted(Merge(current, requested))
    ensures Elems(Merge(current, requested)) == Elems(current) + Elems(requested)
    ensures NoDup(Merge(current, requested)) <==> NoDup(current)
  {
    var all := AppendMissing(current, requested);
    SortIsSorted(all);
    forall x ensures x in Sort(all) <==> x in all {
      assert x in multiset(Sort(all)) <==> x in multiset(all);
    }
    NoDupIsMultiset(all);
    NoDupIsMultiset(Sort(all));
  }

  /** A sorted list without duplicates is determined by the set it names. */
  lemma {:induction false} SortedFormUnique(a: seq<string>, b: seq<string>)
    requires Sorted(a) && NoDup(a) && Sorted(b) && NoDup(b)
    requires Elems(a) == Elems(b)
    ensures a == b
  {
    assert a == [] || a[0] in Elems(a);
    assert b == [] || b[0] in Elems(b);
    if a != [] {
      assert a[0] in b && b[0] in a;
      var i :| 0 <= i < |b| && b[i] == a[0];
      var j :| 0 <= j < |a| && a[j] == b[0];
      if i > 0 && j > 0 {
        StrLeAntisymmetric(a[0], b[0]);
      }
      assert a[0] == b[0];
      var a', b' := a[1..], b[1..];
      forall x ensures x in a' <==> x in b' {
        assert x in a <==> x in b by { assert x in Elems(a) <==> x in Elems(b); }
        assert a == [a[0]] + a' && b == [b[0]] + b';
        if x == a[0] {
          assert x !in a' by { assert forall k :: 0 <= k < |a'| ==> a'[k] == a[k + 1]; }
          assert x !in b' by { assert forall k :: 0 <= k < |b'| ==> b'[k] == b[k + 1]; }
        }
      }
      SortedFormUnique(a', b');
      assert a == [a[0]] + a' && b == [b[0]] + b';
    }
  }

  /** The order of the requests does not show: consent grants commute. */
  lemma MergeCommutes(current: seq<string>, r1: seq<string>, r2: seq<string>)
    requires NoDup(current)
    ensures Merge(Merge(current, r1), r2) == Merge(Merge(current, r2), r1)
  {
    MergeIsSortedUnion(current, r1);
    MergeIsSortedUnion(current, r2);
    MergeIsSortedUnion(Merge(current, r1), r2);
    MergeIsSortedUnion(Merge(current, r2), r1);
    SortedFormUnique(Merge(Merge(current, r1), r2), Merge(Merge(current, r2), r1));
  }

  method MergeScopes(current: seq<string>, requested: seq<string>) returns (result: seq<string>)
    ensures result == Merge(current, requested)
  {
    result := current;
    for i := 0 to |requested|
      invariant result == AppendMissing(current, requested[..i])
    {
      assert requested[..i + 1][..i] == requested[..i];
      if requested[i] !in result {
        result := result + [requested[i]];
      }
    }
    assert requested[..|requested|] == requested;
    result := Sort(result);
  }

  /** The scopes of a list, each once, in the order of their first occurrence. */
  function Dedupe(s: seq<string>): seq<string> { AppendMissing([], s) }

  /** The scopes a request names: its words, or the client's scopes when it names none; None when one is not allowed. */
  function ParseScopes(words: seq<string>, allowed: seq<string>, requireOpenID: bool): Option<seq<string>> {
    var asked := if words == [] then allowed else words;
    if ScopesCover(allowed, asked) && (requireOpenID ==> "openid" in asked) then Some(Dedupe(asked)) else None
  }

  /**
   A parsed scope has no duplicates and names what was asked; parsing fails exactly when that leaves the client's scopes
   or lacks a required openid.
   */
  lemma ParsedScopesAreAllowed(words: seq<string>, allowed: seq<string>, requireOpenID: bool)
    ensures var r := ParseScopes(words, allowed, requireOpenID);
            var asked := Elems(if words == [] then allowed else words);
            && (r.Some? <==> asked <= Elems(allowed) && (requireOpenID ==> "openid" in asked))
            && (r.Some? ==> NoDup(r.value) && ScopesCover(allowed, r.value) && Elems(r.value) == asked)
  {
    var r := ParseScopes(words, allowed, requireOpenID);
    var asked := if words == [] then allowed else words;
    CoverIsSubset(allowed, asked);
    if r.Some? {
      assert Elems(r.value) == Elems([]) + Elems(asked);
      CoverIsSubset(allowed, r.value);
    }
  }

  method RequestedScopes(words: seq<string>, allowed: seq<string>, requireOpenID: bool)
    returns (result: Option<seq<string>>)
    ensures result == ParseScopes(words, allowed, requireOpenID)
  {
    var scopes := if words == [] then allowed else words;
    var unique: seq<string> := [];
    var seen: set<string> := {};
    for i := 0 to |scopes|
      invariant unique == Dedupe(scopes[..i])
      invariant seen == Elems(unique)
    {
      assert scopes[..i + 1][..i] == scopes[..i];
      assert scopes[i] in unique <==> scopes[i] in seen;
      if scopes[i] in seen { continue; }
      ElemsAppend(unique, scopes[i]);
      seen := seen + {scopes[i]};
      unique := unique + [scopes[i]];
    }
    assert scopes[..|scopes|] == scopes;
    assert Elems(unique) == Elems([]) + Elems(scopes);
    assert "openid" in unique <==> "openid" in scopes by {
      assert "openid" in Elems(unique) <==> "openid" in Elems(scopes);
    }
    CoverIsSubset(allowed, unique);
    CoverIsSubset(allowed, scopes);
    if requireOpenID && "openid" !in unique {
      return None;
    }
    for i := 0 to |unique|
      invariant forall j :: 0 <= j < i ==> unique[j] in allowed
    {
      if unique[i] !in allowed {
        return None;
      }
    }
    return Some(unique);
  }
}
