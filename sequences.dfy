/**
 * Sequence operations the dashboard relies on: boolean-mask selection,
 * `unique()` in first-appearance order, `np.arange`, `[::-1]` and
 * `str.join`, each with the properties the rest of the model uses.
 */
module Sequences {

  /** `s` with the elements failing `p` dropped, order kept (a boolean-mask selection). */
  function Filter<T(!new)>(s: seq<T>, p: T -> bool): (r: seq<T>)
    ensures |r| <= |s|
    ensures forall x :: x in r <==> x in s && p(x)
  {
    if s == [] then [] else (if p(s[0]) then [s[0]] else []) + Filter(s[1..], p)
  }

  /** Each element is kept as often as it occurs in `s` when it passes the mask, and never otherwise. */
  lemma {:induction false} FilterCounts<T(!new)>(s: seq<T>, p: T -> bool)
    ensures forall x :: multiset(Filter(s, p))[x] == if p(x) then multiset(s)[x] else 0
  {
    if s != [] {
      assert s == [s[0]] + s[1..];
      FilterCounts(s[1..], p);
    }
  }

  /** `r` can be obtained from `s` by deleting elements: the relative order of `s` is kept. */
  ghost predicate Subsequence<T>(r: seq<T>, s: seq<T>)
    decreases |s|
  {
    if r == [] then true
    else if s == [] then false
    else if r[0] == s[0] then Subsequence(r[1..], s[1..])
    else Subsequence(r, s[1..])
  }

  lemma {:induction false} FilterIsSubsequence<T(!new)>(s: seq<T>, p: T -> bool)
    ensures Subsequence(Filter(s, p), s)
  {
    if s != [] {
      FilterIsSubsequence(s[1..], p);
      var rest := Filter(s[1..], p);
      if p(s[0]) {
        assert Filter(s, p) == [s[0]] + rest;
        assert ([s[0]] + rest)[1..] == rest;
      } else {
        assert Filter(s, p) == rest;
        if rest != [] {
          assert rest[0] in rest;
          assert rest[0] != s[0];
        }
      }
    }
  }

  /** Selection distributes over concatenation. */
  lemma {:induction false} FilterAppend<T(!new)>(a: seq<T>, b: seq<T>, p: T -> bool)
    ensures Filter(a + b, p) == Filter(a, p) + Filter(b, p)
  {
    if a != [] {
      var head := if p(a[0]) then [a[0]] else [];
      calc {
        Filter(a + b, p);
        { assert (a + b)[0] == a[0]; assert (a + b)[1..] == a[1..] + b; }
        head + Filter(a[1..] + b, p);
        { FilterAppend(a[1..], b, p); }
        head + (Filter(a[1..], p) + Filter(b, p));
        (head + Filter(a[1..], p)) + Filter(b, p);
      }
    } else {
      assert a + b == b;
    }
  }

  /** Two masks that agree on every element of `s` select the same rows. */
  lemma {:induction false} FilterCongruent<T(!new)>(s: seq<T>, p: T -> bool, q: T -> bool)
    requires forall x :: x in s ==> p(x) == q(x)
    ensures Filter(s, p) == Filter(s, q)
  {
    if s != [] {
      assert s[0] in s;
      assert forall x :: x in s[1..] ==> x in s;
      FilterCongruent(s[1..], p, q);
    }
  }

  /** A mask that holds of every element selects everything. */
  lemma {:induction false} FilterKeepsAll<T(!new)>(s: seq<T>, p: T -> bool)
    requires forall x :: x in s ==> p(x)
    ensures Filter(s, p) == s
  {
    if s != [] {
      assert s[0] in s;
      assert forall x :: x in s[1..] ==> x in s;
      FilterKeepsAll(s[1..], p);
      assert s == [s[0]] + s[1..];
    }
  }

  /** Applying one mask after another is applying their conjunction `pq` once. */
  lemma {:induction false} FilterFuse<T(!new)>(s: seq<T>, p: T -> bool, q: T -> bool, pq: T -> bool)
    requires forall x :: pq(x) == (p(x) && q(x))
    ensures Filter(Filter(s, p), q) == Filter(s, pq)
  {
    if s != [] {
      var head := if p(s[0]) then [s[0]] else [];
      assert Filter(s, p) == head + Filter(s[1..], p);
      FilterAppend(head, Filter(s[1..], p), q);
      FilterFuse(s[1..], p, q, pq);
      if p(s[0]) {
        assert Filter(head, q) == (if q(s[0]) then [s[0]] else []) + Filter([], q);
      }
    }
  }

  ghost predicate NoDuplicates<T>(s: seq<T>) {
    forall i, j :: 0 <= i < j < |s| ==> s[i] != s[j]
  }

  /** Position of the first occurrence of `x` in `s`. */
  function FirstIndex<T(==)>(s: seq<T>, x: T): (k: nat)
    requires x in s
    ensures k < |s| && s[k] == x
    ensures forall j :: 0 <= j < k ==> s[j] != x
  {
    if s[0] == x then 0 else 1 + FirstIndex(s[1..], x)
  }

  /** The first occurrence of `x` in a prefix holding it is its first occurrence in the whole. */
  lemma FirstIndexOfPrefix<T>(s: seq<T>, n: nat, x: T)
    requires n <= |s| && x in s[..n]
    ensures x in s && FirstIndex(s, x) == FirstIndex(s[..n], x)
  {
    var b := FirstIndex(s[..n], x);
    assert forall j :: 0 <= j < n ==> s[..n][j] == s[j];
    var a := FirstIndex(s, x);
    assert a <= b;
  }

  /** The distinct elements of `s`, each once (pandas `Series.unique()`). */
  function Unique<T(==,!new)>(s: seq<T>): (u: seq<T>)
    ensures NoDuplicates(u)
    ensures forall x :: x in u <==> x in s
    ensures |u| <= |s|
  {
    if s == [] then []
    else
      var init := s[..|s| - 1];
      assert s == init + [s[|s| - 1]];
      var u := Unique(init);
      if s[|s| - 1] in u then u else u + [s[|s| - 1]]
  }

  /** `Unique` lists the distinct elements in the order of their first appearance in `s`. */
  lemma {:induction false} UniqueInFirstAppearanceOrder<T(!new)>(s: seq<T>)
    ensures forall x :: x in Unique(s) ==> x in s
    ensures forall i, j :: 0 <= i < j < |Unique(s)| ==>
      FirstIndex(s, Unique(s)[i]) < FirstIndex(s, Unique(s)[j])
  {
    if s != [] {
      var n := |s| - 1;
      var init := s[..n];
      assert s == init + [s[n]];
      UniqueInFirstAppearanceOrder(init);
      var u := Unique(init);
      forall x | x in u
        ensures FirstIndex(s, x) == FirstIndex(init, x) < n
      {
        FirstIndexOfPrefix(s, n, x);
      }
      if s[n] !in u {
        assert Unique(s) == u + [s[n]];
        assert FirstIndex(s, s[n]) == n by {
          assert forall j :: 0 <= j < n ==> s[j] == init[j] && init[j] in init;
        }
        forall i, j | 0 <= i < j < |Unique(s)|
          ensures FirstIndex(s, Unique(s)[i]) < FirstIndex(s, Unique(s)[j])
        {
          assert Unique(s)[i] == u[i];
          assert u[i] in u;
          if j < |u| {
            assert Unique(s)[j] == u[j];
            assert u[j] in u;
          }
        }
      } else {
        assert Unique(s) == u;
        forall i, j | 0 <= i < j < |u|
          ensures FirstIndex(s, u[i]) < FirstIndex(s, u[j])
        {
          assert u[i] in u && u[j] in u;
        }
      }
    }
  }

  /** `0, 1, ..., n - 1` (`np.arange(n)`). */
  function Range(n: nat): (r: seq<int>)
    ensures |r| == n
    ensures forall i :: 0 <= i < n ==> r[i] == i
  {
    if n == 0 then [] else Range(n - 1) + [n - 1]
  }

  /** `s[::-1]`. */
  function Reverse<T>(s: seq<T>): (r: seq<T>)
    ensures |r| == |s|
    ensures forall k :: 0 <= k < |s| ==> r[k] == s[|s| - 1 - k]
  {
    if s == [] then [] else [s[|s| - 1]] + Reverse(s[..|s| - 1])
  }

  /** `sep.join(parts)`. */
  function Join(sep: string, parts: seq<string>): string
  {
    if |parts| == 0 then ""
    else if |parts| == 1 then parts[0]
    else parts[0] + sep + Join(sep, parts[1..])
  }

  /**
   * `join` of one part is that part, and each further part is appended after one
   * separator; together with `join` of nothing being "", this fixes every `join`.
   */
  lemma {:induction false} JoinAppend(sep: string, parts: seq<string>, p: string)
    ensures Join(sep, [p]) == p
    ensures |parts| > 0 ==> Join(sep, parts + [p]) == Join(sep, parts) + sep + p
  {
    if |parts| == 1 {
      assert (parts + [p])[1..] == [p];
    } else if |parts| > 1 {
      assert (parts + [p])[1..] == parts[1..] + [p];
      JoinAppend(sep, parts[1..], p);
    }
  }
}
