/** Finite sums and lookups over sequences, and the one option type the project uses. */
module Folds {

  datatype Option<+T> = None | Some(value: T)

  /** The position of the first row with this key, or the length of the table. */
  function IndexOf<T, K(==)>(key: T -> K, rows: seq<T>, k: K): (i: nat)
    ensures i <= |rows|
    ensures i < |rows| ==> key(rows[i]) == k
    ensures forall j :: 0 <= j < i ==> key(rows[j]) != k
  {
    if rows == [] then 0 else if key(rows[0]) == k then 0 else 1 + IndexOf(key, rows[1..], k)
  }

  /** The sum of `f` over `s`, built from the left as every accumulating loop of the services does. */
  function Sum<T>(f: T -> real, s: seq<T>): real
  {
    if s == [] then 0.0 else Sum(f, s[..|s| - 1]) + f(s[|s| - 1])
  }

  lemma SumSnoc<T>(f: T -> real, s: seq<T>, x: T)
    ensures Sum(f, s + [x]) == Sum(f, s) + f(x)
  {
    assert (s + [x])[..|s|] == s;
  }

  lemma {:induction false} SumConcat<T>(f: T -> real, a: seq<T>, b: seq<T>)
    ensures Sum(f, a + b) == Sum(f, a) + Sum(f, b)
  {
    if b == [] {
      assert a + b == a;
    } else {
      var n := |b| - 1;
      SumConcat(f, a, b[..n]);
      assert a + b == (a + b[..n]) + [b[n]];
      SumSnoc(f, a + b[..n], b[n]);
    }
  }

  lemma {:induction false} SumUpdate<T>(f: T -> real, s: seq<T>, i: nat, x: T)
    requires i < |s|
    ensures Sum(f, s[i := x]) == Sum(f, s) - f(s[i]) + f(x)
  {
    var n := |s| - 1;
    if i == n {
      assert s[i := x] == s[..n] + [x];
      SumSnoc(f, s[..n], x);
    } else {
      SumUpdate(f, s[..n], i, x);
      assert s[i := x] == s[..n][i := x] + [s[n]];
      SumSnoc(f, s[..n][i := x], s[n]);
    }
  }

  lemma SumRemove<T>(f: T -> real, s: seq<T>, i: nat)
    requires i < |s|
    ensures Sum(f, s) == Sum(f, s[..i] + s[i + 1..]) + f(s[i])
  {
    hide Sum;
    assert s == (s[..i] + [s[i]]) + s[i + 1..];
    SumConcat(f, s[..i] + [s[i]], s[i + 1..]);
    SumSnoc(f, s[..i], s[i]);
    SumConcat(f, s[..i], s[i + 1..]);
  }

  lemma MultisetRemove<T>(s: seq<T>, i: nat)
    requires i < |s|
    ensures multiset(s[..i] + s[i + 1..]) == multiset(s) - multiset{s[i]}
  {
    assert s == s[..i] + [s[i]] + s[i + 1..];
  }

  /** A sum depends only on which elements occur and how often, never on their order. */
  lemma {:induction false} SumPermutation<T>(f: T -> real, a: seq<T>, b: seq<T>)
    requires multiset(a) == multiset(b)
    ensures Sum(f, a) == Sum(f, b)
    decreases |a|
  {
    if a == [] {
      assert |multiset(b)| == 0;
    } else {
      var n := |a| - 1;
      MultisetRemove(a, n);
      assert a[..n] + a[n + 1..] == a[..n];
      assert a[n] in multiset(b);
      var i :| 0 <= i < |b| && b[i] == a[n];
      MultisetRemove(b, i);
      SumRemove(f, b, i);
      SumPermutation(f, a[..n], b[..i] + b[i + 1..]);
    }
  }

  lemma {:induction false} SumScaled<T>(f: T -> real, g: T -> real, k: real, s: seq<T>)
    requires forall x :: x in s ==> g(x) == k * f(x)
    ensures Sum(g, s) == k * Sum(f, s)
  {
    if s != [] {
      SumScaled(f, g, k, s[..|s| - 1]);
    }
  }

  lemma {:induction false} SumAgree<T>(f: T -> real, g: T -> real, s: seq<T>)
    requires forall x :: x in s ==> f(x) == g(x)
    ensures Sum(f, s) == Sum(g, s)
  {
    if s != [] {
      SumAgree(f, g, s[..|s| - 1]);
    }
  }

  lemma {:induction false} SumBounded<T>(f: T -> real, g: T -> real, s: seq<T>)
    requires forall x :: x in s ==> f(x) <= g(x)
    ensures Sum(f, s) <= Sum(g, s)
  {
    if s != [] {
      SumBounded(f, g, s[..|s| - 1]);
    }
  }
}
