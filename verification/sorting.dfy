/** Python's `sorted(..., key=k, reverse=True)`: a stable sort into
    non-increasing key order. */
module Sorting {

  ghost predicate SortedDesc<T>(xs: seq<T>, key: T -> real) {
    forall i, j :: 0 <= i < j < |xs| ==> key(xs[i]) >= key(xs[j])
  }

  /** Places `x` in front of the first element with a strictly smaller key,
      so that `x` stays ahead of the equal keys that followed it. */
  function Insert<T>(x: T, s: seq<T>, key: T -> real): (r: seq<T>)
    requires SortedDesc(s, key)
    ensures SortedDesc(r, key)
    ensures multiset(r) == multiset(s) + multiset{x}
  {
    if |s| == 0 || key(x) >= key(s[0]) then
      [x] + s
    else
      assert s == [s[0]] + s[1..];
      var rest := Insert(x, s[1..], key);
      assert forall y :: y in rest ==> key(s[0]) >= key(y) by {
        forall y | y in rest
          ensures key(s[0]) >= key(y)
        {
          assert y in multiset(rest);
          if y != x {
            assert y in multiset(s[1..]);
            var k :| 0 <= k < |s[1..]| && s[1..][k] == y;
            assert s[k + 1] == y;
          }
        }
      }
      BoundedPrepend(s[0], rest, key);
      [s[0]] + rest
  }

  /** A head whose key bounds every later element keeps a sorted list sorted. */
  lemma BoundedPrepend<T>(h: T, r: seq<T>, key: T -> real)
    requires SortedDesc(r, key)
    requires forall y :: y in r ==> key(h) >= key(y)
    ensures SortedDesc([h] + r, key)
  {
    var s := [h] + r;
    forall i, j | 0 <= i < j < |s|
      ensures key(s[i]) >= key(s[j])
    {
      if i == 0 {
        assert s[j] == r[j - 1];
        assert s[j] in r;
      } else {
        assert s[i] == r[i - 1] && s[j] == r[j - 1];
      }
    }
  }

  function SortDesc<T>(xs: seq<T>, key: T -> real): (r: seq<T>)
    ensures SortedDesc(r, key)
    ensures multiset(r) == multiset(xs)
  {
    if |xs| == 0 then []
    else
      assert xs == [xs[0]] + xs[1..];
      Insert(xs[0], SortDesc(xs[1..], key), key)
  }

  /** Sorting neither adds nor drops elements. */
  lemma SortDescMembers<T>(xs: seq<T>, key: T -> real)
    ensures forall x :: x in SortDesc(xs, key) <==> x in xs
  {
    var r := SortDesc(xs, key);
    forall x
      ensures x in r <==> x in xs
    {
      assert x in r <==> x in multiset(r);
      assert x in xs <==> x in multiset(xs);
    }
  }
}
