/** Python's `sorted`: a stable sort, written as insertion from the left. */
module Sorting {

  /** Insert after every element that is not greater than `x`, so that ties keep their input order. */
  function Insert<T>(s: seq<T>, x: T, le: (T, T) -> bool): seq<T> {
    if s == [] || le(s[|s| - 1], x) then s + [x]
    else Insert(s[..|s| - 1], x, le) + [s[|s| - 1]]
  }

  function Sort<T>(s: seq<T>, le: (T, T) -> bool): seq<T> {
    if s == [] then [] else Insert(Sort(s[..|s| - 1], le), s[|s| - 1], le)
  }

  ghost predicate Preorder<T(!new)>(le: (T, T) -> bool) {
    && (forall x, y :: le(x, y) || le(y, x))
    && (forall x, y, z :: le(x, y) && le(y, z) ==> le(x, z))
  }

  ghost predicate Sorted<T>(s: seq<T>, le: (T, T) -> bool) {
    forall i, j :: 0 <= i < j < |s| ==> le(s[i], s[j])
  }

  lemma {:induction false} InsertContents<T>(s: seq<T>, x: T, le: (T, T) -> bool)
    ensures multiset(Insert(s, x, le)) == multiset(s) + multiset{x}
  {
    if s == [] || le(s[|s| - 1], x) {
    } else {
      InsertContents(s[..|s| - 1], x, le);
      assert s == s[..|s| - 1] + [s[|s| - 1]];
    }
  }

  lemma {:induction false} SortContents<T>(s: seq<T>, le: (T, T) -> bool)
    ensures multiset(Sort(s, le)) == multiset(s)
    ensures |Sort(s, le)| == |s|
  {
    if s != [] {
      SortContents(s[..|s| - 1], le);
      InsertContents(Sort(s[..|s| - 1], le), s[|s| - 1], le);
      assert s == s[..|s| - 1] + [s[|s| - 1]];
    }
    assert |multiset(Sort(s, le))| == |multiset(s)|;
  }

  lemma {:induction false} InsertSorted<T(!new)>(s: seq<T>, x: T, le: (T, T) -> bool)
    requires Preorder(le) && Sorted(s, le)
    ensures Sorted(Insert(s, x, le), le)
  {
    if s == [] || le(s[|s| - 1], x) {
      forall i | 0 <= i < |s|
        ensures le(s[i], x)
      {
        assert i == |s| - 1 || le(s[i], s[|s| - 1]);
      }
    } else {
      var init, last := s[..|s| - 1], s[|s| - 1];
      InsertSorted(init, x, le);
      InsertContents(init, x, le);
      var r := Insert(init, x, le);
      forall i | 0 <= i < |r|
        ensures le(r[i], last)
      {
        assert r[i] in multiset(r);
        if r[i] != x {
          assert r[i] in multiset(init);
          var k :| 0 <= k < |init| && init[k] == r[i];
          assert s[k] == init[k];
        }
      }
    }
  }

  lemma {:induction false} SortSorted<T(!new)>(s: seq<T>, le: (T, T) -> bool)
    requires Preorder(le)
    ensures Sorted(Sort(s, le), le)
  {
    if s != [] {
      SortSorted(s[..|s| - 1], le);
      InsertSorted(Sort(s[..|s| - 1], le), s[|s| - 1], le);
    }
  }

  ghost predicate NoTies<T(!new)>(s: seq<T>, le: (T, T) -> bool) {
    forall x, y :: x in s && y in s && le(x, y) && le(y, x) ==> x == y
  }

  lemma {:induction false} SameLeast<T(!new)>(a: seq<T>, b: seq<T>, le: (T, T) -> bool)
    requires a != [] && b != [] && Sorted(a, le) && Sorted(b, le) && multiset(a) == multiset(b)
    requires NoTies(a, le)
    ensures a[0] == b[0]
  {
    assert a[0] in multiset(b) && b[0] in multiset(a);
    var i :| 0 <= i < |b| && b[i] == a[0];
    var j :| 0 <= j < |a| && a[j] == b[0];
    if i != 0 && j != 0 {
      assert le(b[0], b[i]) && le(a[0], a[j]);
    }
  }

  lemma {:induction false} Tail<T(!new)>(a: seq<T>, le: (T, T) -> bool)
    requires a != [] && Sorted(a, le) && NoTies(a, le)
    ensures Sorted(a[1..], le) && NoTies(a[1..], le) && multiset(a[1..]) == multiset(a) - multiset{a[0]}
  {
    assert a == [a[0]] + a[1..];
    assert forall x :: x in a[1..] ==> x in a;
  }

  /** On elements that the order tells apart, a bag has only one sorted arrangement. */
  lemma {:induction false} SortedUnique<T(!new)>(a: seq<T>, b: seq<T>, le: (T, T) -> bool)
    requires Sorted(a, le) && Sorted(b, le) && multiset(a) == multiset(b)
    requires NoTies(a, le) && NoTies(b, le)
    ensures a == b
  {
    hide Sorted, NoTies;
    assert |a| == |multiset(a)| == |multiset(b)| == |b|;
    if a != [] {
      SameLeast(a, b, le);
      Tail(a, le);
      Tail(b, le);
      SortedUnique(a[1..], b[1..], le);
      assert a == [a[0]] + a[1..] && b == [b[0]] + b[1..];
    }
  }

  lemma {:induction false} NoTiesRearranged<T(!new)>(a: seq<T>, b: seq<T>, le: (T, T) -> bool)
    requires NoTies(a, le) && multiset(a) == multiset(b)
    ensures NoTies(b, le)
  {
    forall x, y | x in b && y in b && le(x, y) && le(y, x)
      ensures x == y
    {
      assert x in multiset(a) && y in multiset(a);
    }
  }

  /** The sort does not depend on the order of its input when no two elements tie. */
  lemma {:induction false} SortCanonical<T(!new)>(s: seq<T>, t: seq<T>, le: (T, T) -> bool)
    requires Preorder(le) && multiset(s) == multiset(t)
    requires NoTies(s, le)
    ensures Sort(s, le) == Sort(t, le)
  {
    SortContents(s, le);
    SortContents(t, le);
    SortSorted(s, le);
    SortSorted(t, le);
    NoTiesRearranged(s, Sort(s, le), le);
    NoTiesRearranged(s, Sort(t, le), le);
    SortedUnique(Sort(s, le), Sort(t, le), le);
  }

  function Filter<T>(s: seq<T>, keep: T -> bool): seq<T> {
    if s == [] then []
    else Filter(s[..|s| - 1], keep) + (if keep(s[|s| - 1]) then [s[|s| - 1]] else [])
  }

  lemma {:induction false} FilterSnoc<T>(s: seq<T>, x: T, keep: T -> bool)
    ensures Filter(s + [x], keep) == Filter(s, keep) + (if keep(x) then [x] else [])
  {
    assert (s + [x])[..|s|] == s;
  }

  lemma {:induction false} SnocContents<T>(s: seq<T>, x: T)
    ensures multiset(s + [x]) == multiset(s) + multiset{x}
  {
  }

  lemma {:induction false} FilterContents<T>(s: seq<T>, keep: T -> bool)
    ensures forall x :: multiset(Filter(s, keep))[x] == if keep(x) then multiset(s)[x] else 0
    ensures |Filter(s, keep)| <= |s|
  {
    if s != [] {
      var init, last := s[..|s| - 1], s[|s| - 1];
      FilterContents(init, keep);
      assert s == init + [last];
      FilterSnoc(init, last, keep);
      hide Filter;
      if keep(last) {
        SnocContents(Filter(init, keep), last);
      } else {
        assert Filter(init, keep) + [] == Filter(init, keep);
      }
      SnocContents(init, last);
    }
  }

  lemma {:induction false} FilterMember<T>(s: seq<T>, keep: T -> bool, x: T)
    ensures x in Filter(s, keep) <==> x in s && keep(x)
  {
    FilterContents(s, keep);
    assert x in s <==> multiset(s)[x] > 0;
    assert x in Filter(s, keep) <==> multiset(Filter(s, keep))[x] > 0;
  }

  /** The elements equivalent to `k`, in order. */
  ghost function Ties<T>(s: seq<T>, k: T, le: (T, T) -> bool): seq<T> {
    Filter(s, x => le(x, k) && le(k, x))
  }

  lemma {:induction false} InsertStable<T(!new)>(s: seq<T>, x: T, k: T, le: (T, T) -> bool)
    requires Preorder(le) && Sorted(s, le)
    ensures Ties(Insert(s, x, le), k, le) == Ties(s + [x], k, le)
  {
    var tied := y => le(y, k) && le(k, y);
    FilterSnoc(s, x, tied);
    if s == [] || le(s[|s| - 1], x) {
    } else {
      var init, last := s[..|s| - 1], s[|s| - 1];
      InsertStable(init, x, k, le);
      FilterSnoc(init, x, tied);
      FilterSnoc(Insert(init, x, le), last, tied);
      // `last` is strictly above `x`, so at most one of the two ties with `k`.
      assert !(tied(x) && tied(last));
    }
  }

  /** Stability: elements with equal keys come out in their input order. */
  lemma {:induction false} SortStable<T(!new)>(s: seq<T>, k: T, le: (T, T) -> bool)
    requires Preorder(le)
    ensures Ties(Sort(s, le), k, le) == Ties(s, k, le)
  {
    if s != [] {
      var init, last := s[..|s| - 1], s[|s| - 1];
      var tied := y => le(y, k) && le(k, y);
      SortSorted(init, le);
      SortStable(init, k, le);
      InsertStable(Sort(init, le), last, k, le);
      FilterSnoc(Sort(init, le), last, tied);
      assert s == init + [last];
      FilterSnoc(init, last, tied);
    }
  }

  lemma {:induction false} SortMember<T>(s: seq<T>, le: (T, T) -> bool, x: T)
    ensures x in Sort(s, le) <==> x in s
  {
    SortContents(s, le);
    assert x in s <==> x in multiset(s);
    assert x in Sort(s, le) <==> x in multiset(Sort(s, le));
  }

  lemma {:induction false} InsertAgrees<T(!new)>(s: seq<T>, x: T, le: (T, T) -> bool, before: (T, T) -> bool)
    requires forall a, b :: le(a, b) == before(a, b)
    ensures Insert(s, x, le) == Insert(s, x, before)
  {
    if s != [] && !le(s[|s| - 1], x) {
      InsertAgrees(s[..|s| - 1], x, le, before);
    }
  }

  lemma {:induction false} SortAgrees<T(!new)>(s: seq<T>, le: (T, T) -> bool, before: (T, T) -> bool)
    requires forall a, b :: le(a, b) == before(a, b)
    ensures Sort(s, le) == Sort(s, before)
  {
    if s != [] {
      SortAgrees(s[..|s| - 1], le, before);
      InsertAgrees(Sort(s[..|s| - 1], le), s[|s| - 1], le, before);
    }
  }

  lemma {:induction false} FilterAgrees<T>(s: seq<T>, p: T -> bool, q: T -> bool)
    requires forall i :: 0 <= i < |s| ==> p(s[i]) == q(s[i])
    ensures Filter(s, p) == Filter(s, q)
  {
    if s != [] {
      FilterAgrees(s[..|s| - 1], p, q);
    }
  }

  lemma {:induction false} FilterNone<T>(s: seq<T>, keep: T -> bool)
    requires forall i :: 0 <= i < |s| ==> !keep(s[i])
    ensures Filter(s, keep) == []
  {
    if s != [] {
      FilterNone(s[..|s| - 1], keep);
    }
  }

  lemma {:induction false} FilterAll<T>(s: seq<T>, keep: T -> bool)
    requires forall i :: 0 <= i < |s| ==> keep(s[i])
    ensures Filter(s, keep) == s
  {
    if s != [] {
      FilterAll(s[..|s| - 1], keep);
      assert s == s[..|s| - 1] + [s[|s| - 1]];
    }
  }

  /** Picking from what `p` already picked, when `q` picks only such elements. */
  lemma {:induction false} FilterTwice<T>(s: seq<T>, p: T -> bool, q: T -> bool)
    requires forall i :: 0 <= i < |s| && q(s[i]) ==> p(s[i])
    ensures Filter(Filter(s, p), q) == Filter(s, q)
  {
    if s != [] {
      var init, last := s[..|s| - 1], s[|s| - 1];
      FilterTwice(init, p, q);
      if p(last) {
        FilterSnoc(Filter(init, p), last, q);
      } else {
        assert Filter(s, p) == Filter(init, p) && Filter(s, q) == Filter(init, q);
      }
    }
  }

  lemma {:induction false} FilterAppend<T>(a: seq<T>, b: seq<T>, keep: T -> bool)
    ensures Filter(a + b, keep) == Filter(a, keep) + Filter(b, keep)
  {
    if b == [] {
      assert a + b == a;
    } else {
      var init, last := b[..|b| - 1], b[|b| - 1];
      FilterAppend(a, init, keep);
      assert a + b == (a + init) + [last];
      FilterSnoc(a + init, last, keep);
    }
  }

  lemma {:induction false} SortedAppend<T(!new)>(a: seq<T>, b: seq<T>, le: (T, T) -> bool)
    requires Sorted(a, le) && Sorted(b, le)
    requires forall x, y :: x in a && y in b ==> le(x, y)
    ensures Sorted(a + b, le)
  {
    forall i, j | 0 <= i < j < |a + b|
      ensures le((a + b)[i], (a + b)[j])
    {
      if i < |a| <= j {
        assert a[i] in a && b[j - |a|] in b;
      }
    }
  }

  lemma {:induction false} SameGreatest<T(!new)>(a: seq<T>, b: seq<T>, le: (T, T) -> bool)
    requires Preorder(le) && a != [] && Sorted(a, le) && Sorted(b, le)
    requires forall k :: Ties(a, k, le) == Ties(b, k, le)
    ensures b != [] && a[|a| - 1] == b[|b| - 1]
  {
    var x := a[|a| - 1];
    var tiesX := y => le(y, x) && le(x, y);
    FilterMember(a, tiesX, x);
    assert Ties(a, x, le) == Ties(b, x, le);
    FilterMember(b, tiesX, x);
    var z := b[|b| - 1];
    assert le(x, z);
    var tiesZ := y => le(y, z) && le(z, y);
    FilterMember(b, tiesZ, z);
    assert Ties(a, z, le) == Ties(b, z, le);
    FilterMember(a, tiesZ, z);
    assert le(z, x);
    assert Ties(a, x, le)[|Ties(a, x, le)| - 1] == x;
    assert Ties(b, x, le)[|Ties(b, x, le)| - 1] == z;
  }

  lemma {:induction false} SameInit<T>(a: seq<T>, b: seq<T>, tail: seq<T>)
    requires a + tail == b + tail
    ensures a == b
  {
    assert |a + tail| == |b + tail|;
    assert a == (a + tail)[..|a|] && b == (b + tail)[..|b|];
  }

  /** A stable sort has one possible result: sorted, and each class of ties in the given order. */
  lemma {:induction false} StableUnique<T(!new)>(a: seq<T>, b: seq<T>, le: (T, T) -> bool)
    requires Preorder(le) && Sorted(a, le) && Sorted(b, le)
    requires forall k :: Ties(a, k, le) == Ties(b, k, le)
    ensures a == b
  {
    hide Preorder;
    if a == [] {
      if b != [] {
        SameGreatest(b, a, le);
      }
    } else {
      SameGreatest(a, b, le);
      var ia, ib, x := a[..|a| - 1], b[..|b| - 1], a[|a| - 1];
      assert a == ia + [x] && b == ib + [x];
      forall k
        ensures Ties(ia, k, le) == Ties(ib, k, le)
      {
        var tied := y => le(y, k) && le(k, y);
        FilterSnoc(ia, x, tied);
        FilterSnoc(ib, x, tied);
        assert Ties(a, k, le) == Ties(b, k, le);
        SameInit(Filter(ia, tied), Filter(ib, tied), if tied(x) then [x] else []);
      }
      StableUnique(ia, ib, le);
    }
  }

  lemma {:induction false} TiesPicked<T(!new)>(s: seq<T>, k: T, le: (T, T) -> bool, tied: T -> bool)
    requires forall x :: tied(x) == (le(x, k) && le(k, x))
    ensures Ties(s, k, le) == Filter(s, tied)
  {
    FilterAgrees(s, x => le(x, k) && le(k, x), tied);
  }
}
