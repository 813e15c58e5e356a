/** Sequence helpers shared by the mixer: an optional value, a sum over a
    sequence and a filter-map, each with the permutation facts the swap-remove
    loops rely on. */
module Collections {

  datatype Option<+T> = None | Some(value: T)

  /** The sum of f over the elements of s. */
  function SumOf<T>(s: seq<T>, f: T -> int): int
  {
    if |s| == 0 then 0 else f(s[0]) + SumOf(s[1..], f)
  }

  /** The elements of s that f keeps, transformed by f, in order. */
  function FilterMap<T, U>(s: seq<T>, f: T -> Option<U>): (r: seq<U>)
    ensures |r| <= |s|
  {
    if |s| == 0 then []
    else
      (match f(s[0]) case Some(u) => [u] case None => []) + FilterMap(s[1..], f)
  }

  /** Removal of element i by moving the last element into its place and
      dropping the last position: the prefix before i is untouched and the
      elements from i on are the old ones after i, in another order. */
  function SwapRemove<T>(s: seq<T>, i: nat): (r: seq<T>)
    requires i < |s|
    ensures |r| == |s| - 1
    ensures r[..i] == s[..i]
    ensures multiset(r[i..]) == multiset(s[i + 1..])
  {
    var last := |s| - 1;
    var r := s[i := s[last]][..last];
    assert r[..i] == s[..i];
    assert i < last ==> r[i..] == [s[last]] + s[i + 1..last];
    assert i < last ==> s[i + 1..] == s[i + 1..last] + [s[last]];
    r
  }

  /** Every element from i on after a swap-remove was an element after i before. */
  lemma SwapRemoveFrom<T>(s: seq<T>, i: nat, j: nat)
    requires i <= j < |s| - 1
    ensures SwapRemove(s, i)[j] == if j == i then s[|s| - 1] else s[j]
  {
  }

  lemma {:induction false} SumOfConcat<T>(a: seq<T>, b: seq<T>, f: T -> int)
    ensures SumOf(a + b, f) == SumOf(a, f) + SumOf(b, f)
  {
    if |a| == 0 {
      assert a + b == b;
    } else {
      assert (a + b)[1..] == a[1..] + b;
      SumOfConcat(a[1..], b, f);
    }
  }

  /** In a reordering b of a, the head of a sits at some index j of b, and
      the rest of a is a reordering of b with index j taken out. */
  lemma MatchHead<T>(a: seq<T>, b: seq<T>) returns (j: nat)
    requires multiset(a) == multiset(b) && |a| > 0
    ensures j < |b| && b[j] == a[0]
    ensures multiset(a[1..]) == multiset(b[..j] + b[j + 1..])
  {
    var x := a[0];
    assert x in multiset(b);
    j :| 0 <= j < |b| && b[j] == x;
    var rest := b[..j] + b[j + 1..];
    assert b == b[..j] + [x] + b[j + 1..];
    assert a == [x] + a[1..];
    assert multiset(b) == multiset(b[..j]) + multiset{x} + multiset(b[j + 1..]);
    assert multiset(a) == multiset{x} + multiset(a[1..]);
    assert multiset(rest) == multiset(b[..j]) + multiset(b[j + 1..]);
    assert multiset(rest) == multiset(b) - multiset{x};
    assert multiset(a[1..]) == multiset(a) - multiset{x};
  }

  /** A sum does not depend on the order of the summands. */
  lemma {:induction false} SumOfPermutation<T>(a: seq<T>, b: seq<T>, f: T -> int)
    requires multiset(a) == multiset(b)
    ensures SumOf(a, f) == SumOf(b, f)
  {
    if |a| == 0 {
      assert |b| == |multiset(b)| == 0;
    } else {
      var j := MatchHead(a, b);
      var rest := b[..j] + b[j + 1..];
      assert b == b[..j] + ([b[j]] + b[j + 1..]);
      SumOfConcat(b[..j], [b[j]] + b[j + 1..], f);
      assert ([b[j]] + b[j + 1..])[1..] == b[j + 1..];
      SumOfConcat(b[..j], b[j + 1..], f);
      SumOfPermutation(a[1..], rest, f);
    }
  }

  lemma {:induction false} FilterMapConcat<T, U>(a: seq<T>, b: seq<T>, f: T -> Option<U>)
    ensures FilterMap(a + b, f) == FilterMap(a, f) + FilterMap(b, f)
  {
    if |a| == 0 {
      assert a + b == b;
    } else {
      assert (a + b)[1..] == a[1..] + b;
      FilterMapConcat(a[1..], b, f);
    }
  }

  /** A filter-map keeps the same elements, in some order, of a reordered input. */
  lemma {:induction false} FilterMapPermutation<T, U>(a: seq<T>, b: seq<T>, f: T -> Option<U>)
    requires multiset(a) == multiset(b)
    ensures multiset(FilterMap(a, f)) == multiset(FilterMap(b, f))
  {
    if |a| == 0 {
      assert |b| == |multiset(b)| == 0;
    } else {
      var j := MatchHead(a, b);
      var rest := b[..j] + b[j + 1..];
      assert b == b[..j] + ([b[j]] + b[j + 1..]);
      FilterMapConcat(b[..j], [b[j]] + b[j + 1..], f);
      assert ([b[j]] + b[j + 1..])[1..] == b[j + 1..];
      FilterMapConcat(b[..j], b[j + 1..], f);
      FilterMapPermutation(a[1..], rest, f);
    }
  }

  /** u is produced exactly when some element of s maps to it. */
  lemma {:induction false} FilterMapMember<T, U>(s: seq<T>, f: T -> Option<U>, u: U)
    ensures u in FilterMap(s, f) <==> exists i :: 0 <= i < |s| && f(s[i]) == Some(u)
  {
    if |s| > 0 {
      FilterMapMember(s[1..], f, u);
      if u in FilterMap(s[1..], f) {
        var i :| 0 <= i < |s| - 1 && f(s[1..][i]) == Some(u);
        assert f(s[i + 1]) == Some(u);
      }
      if exists i :: 0 <= i < |s| && f(s[i]) == Some(u) {
        var i :| 0 <= i < |s| && f(s[i]) == Some(u);
        if i > 0 {
          assert f(s[1..][i - 1]) == Some(u);
        }
      }
    }
  }
}
