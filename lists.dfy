/** JavaScript's `Array.prototype.filter` and `Array.prototype.some`, and the
    order-preserving subsequence relation that a filtered array keeps with
    the array it came from. */
module Lists {

  /** `s.filter(p)`: the elements of `s` that satisfy `p`, in their original order. */
  function Filter<T(==)>(s: seq<T>, p: T -> bool): (r: seq<T>)
    ensures |r| <= |s|
    ensures forall i :: 0 <= i < |r| ==> r[i] in s && p(r[i])
    ensures forall i :: 0 <= i < |s| && p(s[i]) ==> s[i] in r
  {
    if s == [] then []
    else if p(s[0]) then [s[0]] + Filter(s[1..], p)
    else Filter(s[1..], p)
  }

  /** `s.some(p)`: some element of `s` satisfies `p`. */
  predicate Any<T>(s: seq<T>, p: T -> bool)
  {
    exists i :: 0 <= i < |s| && p(s[i])
  }

  /** `a` can be obtained from `b` by deleting elements, keeping the order of the rest. */
  predicate IsSubsequence<T(==)>(a: seq<T>, b: seq<T>)
    decreases |b|
  {
    if a == [] then true
    else if b == [] then false
    else (a[0] == b[0] && IsSubsequence(a[1..], b[1..])) || IsSubsequence(a, b[1..])
  }

  /** No value occurs twice. */
  predicate NoDuplicates<T(==)>(s: seq<T>)
  {
    forall i, j :: 0 <= i < j < |s| ==> s[i] != s[j]
  }

  /** Filtering keeps the surviving elements in their original order. */
  lemma {:induction false} FilterIsSubsequence<T>(s: seq<T>, p: T -> bool)
    ensures IsSubsequence(Filter(s, p), s)
  {
    if s != [] {
      FilterIsSubsequence(s[1..], p);
      var rest := Filter(s[1..], p);
      if p(s[0]) {
        assert ([s[0]] + rest)[1..] == rest;
      }
    }
  }

  /** Every sequence is a subsequence of itself. */
  lemma {:induction false} SubsequenceOfItself<T>(s: seq<T>)
    ensures IsSubsequence(s, s)
  {
    if s != [] {
      SubsequenceOfItself(s[1..]);
    }
  }

  /** A filter that every element passes returns the array unchanged. */
  lemma {:induction false} FilterAllPass<T>(s: seq<T>, p: T -> bool)
    requires forall x :: x in s ==> p(x)
    ensures Filter(s, p) == s
  {
    if s != [] {
      FilterAllPass(s[1..], p);
      assert [s[0]] + s[1..] == s;
    }
  }

  /** Filtering distributes over concatenation. */
  lemma {:induction false} FilterConcat<T>(a: seq<T>, b: seq<T>, p: T -> bool)
    ensures Filter(a + b, p) == Filter(a, p) + Filter(b, p)
  {
    if a == [] {
      assert a + b == b;
    } else {
      assert (a + b)[0] == a[0];
      assert (a + b)[1..] == a[1..] + b;
      FilterConcat(a[1..], b, p);
    }
  }

  /** Filtering keeps every passing value as often as it occurs, and no other value:
      together with `FilterIsSubsequence` this pins the result down exactly. */
  lemma {:induction false} FilterCount<T>(s: seq<T>, p: T -> bool, x: T)
    ensures multiset(Filter(s, p))[x] == if p(x) then multiset(s)[x] else 0
  {
    if s != [] {
      FilterCount(s[1..], p, x);
      assert s == [s[0]] + s[1..];
      assert multiset(s) == multiset{s[0]} + multiset(s[1..]);
      if p(s[0]) {
        assert multiset([s[0]] + Filter(s[1..], p)) == multiset{s[0]} + multiset(Filter(s[1..], p));
      }
    }
  }

  /** Deleting elements cannot create a duplicate. */
  lemma {:induction false} FilterKeepsNoDuplicates<T>(s: seq<T>, p: T -> bool)
    requires NoDuplicates(s)
    ensures NoDuplicates(Filter(s, p))
  {
    if s != [] {
      assert NoDuplicates(s[1..]) by {
        forall i, j | 0 <= i < j < |s[1..]| ensures s[1..][i] != s[1..][j] {
          assert s[1..][i] == s[i + 1] && s[1..][j] == s[j + 1];
        }
      }
      FilterKeepsNoDuplicates(s[1..], p);
      var rest := Filter(s[1..], p);
      if p(s[0]) {
        assert s[0] !in s[1..] by {
          forall k | 0 <= k < |s[1..]| ensures s[1..][k] != s[0] {
            assert s[1..][k] == s[k + 1];
          }
        }
        assert s[0] !in rest;
        var r := [s[0]] + rest;
        forall i, j | 0 <= i < j < |r| ensures r[i] != r[j] {
          if i == 0 {
            assert r[j] == rest[j - 1];
            assert r[j] in rest;
          } else {
            assert r[i] == rest[i - 1] && r[j] == rest[j - 1];
          }
        }
      }
    }
  }
}
