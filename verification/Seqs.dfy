/** Value types and sequence facts shared by the models. */
module Seqs {

  datatype Option<+T> = None | Some(value: T)

  datatype Result<+T, +E> = Ok(value: T) | Err(error: E)

  function Flatten<T>(parts: seq<seq<T>>): seq<T> {
    if parts == [] then [] else parts[0] + Flatten(parts[1..])
  }

  lemma {:induction false} FlattenAppend<T>(a: seq<seq<T>>, b: seq<seq<T>>)
    ensures Flatten(a + b) == Flatten(a) + Flatten(b)
  {
    if a == [] {
      assert a + b == b;
    } else {
      assert (a + b)[1..] == a[1..] + b;
      FlattenAppend(a[1..], b);
    }
  }

  lemma {:induction false} FlattenSnoc<T>(a: seq<seq<T>>, last: seq<T>)
    ensures Flatten(a + [last]) == Flatten(a) + last
  {
    FlattenAppend(a, [last]);
    assert Flatten([last]) == last;
  }

  /** `sep.join(parts)`. */
  function Join(sep: string, parts: seq<string>): string {
    if parts == [] then "" else if |parts| == 1 then parts[0] else parts[0] + sep + Join(sep, parts[1..])
  }

  predicate Distinct<T(==)>(s: seq<T>) {
    forall i, j :: 0 <= i < j < |s| ==> s[i] != s[j]
  }

  function Max(a: int, b: int): int {
    if a < b then b else a
  }

  function Min(a: int, b: int): int {
    if a < b then a else b
  }

  /** An element with multiplicity one stands at exactly one position. */
  lemma {:induction false} MultiplicityOne<T>(s: seq<T>, i: nat, j: nat)
    requires i < j < |s| && s[i] == s[j]
    ensures multiset(s)[s[i]] >= 2
  {
    assert s == s[..j] + [s[j]] + s[j + 1..];
    assert s[i] in s[..j];
  }

  lemma {:induction false} DistinctMultiplicity<T>(s: seq<T>)
    requires forall x :: x in multiset(s) ==> multiset(s)[x] == 1
    ensures Distinct(s)
  {
    forall i, j | 0 <= i < j < |s|
      ensures s[i] != s[j]
    {
      assert s[i] in multiset(s);
      if s[i] == s[j] {
        MultiplicityOne(s, i, j);
      }
    }
  }

  lemma {:induction false} MultiplicityOfDistinct<T>(s: seq<T>)
    requires Distinct(s)
    ensures forall x :: x in multiset(s) ==> multiset(s)[x] == 1
  {
    if s != [] {
      var init := s[..|s| - 1];
      MultiplicityOfDistinct(init);
      assert s == init + [s[|s| - 1]];
    }
  }

  /** The last element of `a`, located in a rearrangement `b` of `a`. */
  lemma {:induction false} PullOut<T>(a: seq<T>, b: seq<T>) returns (before: seq<T>, after: seq<T>)
    requires a != [] && multiset(a) == multiset(b)
    ensures b == before + [a[|a| - 1]] + after
    ensures multiset(a[..|a| - 1]) == multiset(before + after)
  {
    var x := a[|a| - 1];
    assert x in multiset(b);
    var k :| 0 <= k < |b| && b[k] == x;
    before, after := b[..k], b[k + 1..];
    assert a == a[..|a| - 1] + [x];
    assert b == before + [x] + after;
    assert multiset(before + after) == multiset(b) - multiset{x};
  }

  lemma {:induction false} DistinctRearranged<T>(a: seq<T>, b: seq<T>)
    requires Distinct(a) && multiset(a) == multiset(b)
    ensures Distinct(b)
  {
    MultiplicityOfDistinct(a);
    DistinctMultiplicity(b);
  }

  lemma {:induction false} MultisetAssoc<T>(x: multiset<T>, y: multiset<T>, z: multiset<T>)
    ensures (x + y) + z == x + (y + z)
  {
  }

  lemma {:induction false} SnocConcat<T>(a: seq<T>, b: seq<T>)
    requires b != []
    ensures a + b == (a + b[..|b| - 1]) + [b[|b| - 1]]
    ensures b == b[..|b| - 1] + [b[|b| - 1]]
  {
  }

  /** Growing the last part by `x` grows the flattened sequence by `x`. */
  lemma {:induction false} FlattenGrow<T>(parts: seq<seq<T>>, x: T)
    requires parts != []
    ensures var last := parts[|parts| - 1];
            Flatten(parts[..|parts| - 1] + [last + [x]]) == Flatten(parts) + [x]
  {
    var rest, last := parts[..|parts| - 1], parts[|parts| - 1];
    FlattenSnoc(rest, last + [x]);
    assert parts == rest + [last];
    FlattenSnoc(rest, last);
  }

  lemma {:induction false} ConcatAssoc<T>(x: seq<T>, y: seq<T>, z: seq<T>)
    ensures (x + y) + z == x + (y + z)
  {
  }
}
