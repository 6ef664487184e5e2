/** The SQL the handlers lean on, as functions over a table's rows in rowid
    order: `SUM(...)`, `COUNT(*) ... WHERE`, `DELETE ... WHERE`, and the
    PRIMARY KEY / UNIQUE constraints. Rows are appended at the end, so every
    aggregate is defined from the last row backwards. */
module Aggregates {

  /** `SUM(f(row))` over the rows, 0 on an empty table. */
  function SumBy<T>(s: seq<T>, f: T -> real): real
  {
    if s == [] then 0.0 else SumBy(s[..|s| - 1], f) + f(s[|s| - 1])
  }

  /** `COUNT(*) WHERE p(row)`: the number of rows `WHERE p(row)` selects. */
  function CountBy<T>(s: seq<T>, p: T -> bool): (r: nat)
    ensures r <= |s| && r == |Filter(s, p)|
  {
    if s == [] then 0 else CountBy(s[..|s| - 1], p) + (if p(s[|s| - 1]) then 1 else 0)
  }

  /** The rows a `WHERE keep(row)` selects, in rowid order; also what is left
      after `DELETE ... WHERE !keep(row)`. */
  function Filter<T>(s: seq<T>, keep: T -> bool): (r: seq<T>)
    ensures |r| <= |s|
    ensures forall i :: 0 <= i < |r| ==> r[i] in s && keep(r[i])
    ensures forall i :: 0 <= i < |s| && keep(s[i]) ==> s[i] in r
    ensures |s| == 1 ==> r == (if keep(s[0]) then s else [])
  {
    if s == [] then []
    else Filter(s[..|s| - 1], keep) + (if keep(s[|s| - 1]) then [s[|s| - 1]] else [])
  }

  /** No two rows share a key (a PRIMARY KEY or UNIQUE column). */
  ghost predicate DistinctBy<T, K>(s: seq<T>, key: T -> K)
  {
    forall i, j :: 0 <= i < j < |s| ==> key(s[i]) != key(s[j])
  }

  /** A sum of values none of which is negative is not negative. */
  lemma {:induction false} SumByNonNegative<T>(s: seq<T>, f: T -> real)
    ensures (forall x :: x in s ==> f(x) >= 0.0) ==> SumBy(s, f) >= 0.0
  {
    if s != [] {
      assert forall x :: x in s[..|s| - 1] ==> x in s;
      SumByNonNegative(s[..|s| - 1], f);
    }
  }

  /** A sum of zeros is zero. */
  lemma {:induction false} SumByZero<T>(s: seq<T>, f: T -> real)
    ensures (forall x :: x in s ==> f(x) == 0.0) ==> SumBy(s, f) == 0.0
  {
    if s != [] {
      assert forall x :: x in s[..|s| - 1] ==> x in s;
      SumByZero(s[..|s| - 1], f);
    }
  }

  lemma {:induction false} SumByAppend<T>(a: seq<T>, b: seq<T>, f: T -> real)
    ensures SumBy(a + b, f) == SumBy(a, f) + SumBy(b, f)
  {
    if b != [] {
      assert (a + b)[..|a + b| - 1] == a + b[..|b| - 1];
      SumByAppend(a, b[..|b| - 1], f);
    } else {
      assert a + b == a;
    }
  }

  /** Taking one row out of a sum subtracts that row's value. */
  lemma {:induction false} SumByRemove<T>(b: seq<T>, k: nat, f: T -> real)
    requires k < |b|
    ensures SumBy(b, f) == SumBy(b[..k] + b[k + 1..], f) + f(b[k])
  {
    var front, back := b[..k], b[k + 1..];
    var mid := [b[k]] + back;
    assert b == front + mid;
    SumByAppend(front, mid, f);
    SumByAppend([b[k]], back, f);
    SumByAppend(front, back, f);
    assert SumBy([b[k]], f) == f(b[k]) by {
      assert [b[k]][..0] == [];
    }
  }

  /** A sum does not depend on the order of the rows. */
  lemma {:induction false} SumByPermutation<T>(a: seq<T>, b: seq<T>, f: T -> real)
    requires multiset(a) == multiset(b)
    ensures SumBy(a, f) == SumBy(b, f)
    decreases |a|
  {
    if a == [] {
      assert |b| == |multiset(b)| == 0;
    } else {
      var x := a[|a| - 1];
      var a' := a[..|a| - 1];
      assert a == a' + [x];
      assert x in multiset(b);
      var k :| 0 <= k < |b| && b[k] == x;
      var b' := b[..k] + b[k + 1..];
      assert b == b[..k] + [x] + b[k + 1..];
      assert multiset(b') == multiset(b) - multiset{x};
      SumByPermutation(a', b', f);
      SumByRemove(b, k, f);
    }
  }

  /** Two summands that agree on every row give the same sum. */
  lemma {:induction false} SumByCongruent<T>(s: seq<T>, f: T -> real, g: T -> real)
    requires forall x :: x in s ==> f(x) == g(x)
    ensures SumBy(s, f) == SumBy(s, g)
  {
    if s != [] {
      SumByCongruent(s[..|s| - 1], f, g);
    }
  }

  /** Summing a masked value over every row is summing over the rows the mask
      selects: the `SUM(...) WHERE` of SQL against the `if` of a loop. */
  lemma {:induction false} SumByFilter<T>(s: seq<T>, keep: T -> bool, f: T -> real, g: T -> real)
    requires forall x :: g(x) == (if keep(x) then f(x) else 0.0)
    ensures SumBy(s, g) == SumBy(Filter(s, keep), f)
  {
    if s != [] {
      var x := s[|s| - 1];
      SumByFilter(s[..|s| - 1], keep, f, g);
      var r := Filter(s[..|s| - 1], keep);
      if keep(x) {
        assert Filter(s, keep) == r + [x];
        assert (r + [x])[..|r + [x]| - 1] == r;
      } else {
        assert Filter(s, keep) == r;
      }
    }
  }

  /** `COUNT(*) ... > 0` holds exactly when some row matches. */
  lemma {:induction false} CountPositiveIff<T>(s: seq<T>, p: T -> bool)
    ensures CountBy(s, p) > 0 <==> exists i :: 0 <= i < |s| && p(s[i])
  {
    if s != [] {
      var s' := s[..|s| - 1];
      CountPositiveIff(s', p);
      if exists i :: 0 <= i < |s'| && p(s'[i]) {
        var i :| 0 <= i < |s'| && p(s'[i]);
        assert s[i] == s'[i];
      }
      if exists i :: 0 <= i < |s| && p(s[i]) {
        var i :| 0 <= i < |s| && p(s[i]);
        if i < |s| - 1 {
          assert s'[i] == s[i];
        }
      }
    }
  }

  /** Filtering two runs of rows filters each run and keeps them in order;
      with the one-row case of `Filter`, this fixes both the order and the
      multiplicity of the rows a filter keeps. */
  lemma {:induction false} FilterAppend<T>(a: seq<T>, b: seq<T>, keep: T -> bool)
    ensures Filter(a + b, keep) == Filter(a, keep) + Filter(b, keep)
  {
    if b == [] {
      assert a + b == a;
    } else {
      var b' := b[..|b| - 1];
      assert (a + b)[..|a + b| - 1] == a + b';
      FilterAppend(a, b', keep);
    }
  }

  /** A filter that keeps every row changes nothing. */
  lemma {:induction false} FilterKeepsAll<T>(s: seq<T>, keep: T -> bool)
    requires forall x :: x in s ==> keep(x)
    ensures Filter(s, keep) == s
  {
    if s != [] {
      FilterKeepsAll(s[..|s| - 1], keep);
      assert s[..|s| - 1] + [s[|s| - 1]] == s;
    }
  }

  /** A filter that drops exactly the row at position k removes that row and
      keeps every other one, in order. */
  lemma {:induction false} FilterDropsOne<T>(s: seq<T>, keep: T -> bool, k: nat)
    requires k < |s| && !keep(s[k])
    requires forall i :: 0 <= i < |s| && i != k ==> keep(s[i])
    ensures Filter(s, keep) == s[..k] + s[k + 1..]
  {
    var s' := s[..|s| - 1];
    if k == |s| - 1 {
      FilterKeepsAll(s', keep);
      assert s[k + 1..] == [];
      assert s[..k] == s';
    } else {
      forall i | 0 <= i < |s'| && i != k ensures keep(s'[i]) {
        assert s'[i] == s[i];
      }
      FilterDropsOne(s', keep, k);
      assert s'[..k] == s[..k];
      assert s'[k + 1..] + [s[|s| - 1]] == s[k + 1..];
    }
  }

  /** With distinct keys, at most one row carries a given key, so deleting by
      key removes that row alone (or nothing when the key is absent). */
  lemma DeleteByKey<T, K>(s: seq<T>, key: T -> K, id: K, keep: T -> bool)
    requires DistinctBy(s, key)
    requires forall x :: keep(x) <==> key(x) != id
    ensures (forall i :: 0 <= i < |s| ==> key(s[i]) != id) ==> Filter(s, keep) == s
    ensures forall k :: 0 <= k < |s| && key(s[k]) == id ==> Filter(s, keep) == s[..k] + s[k + 1..]
  {
    if forall i :: 0 <= i < |s| ==> key(s[i]) != id {
      FilterKeepsAll(s, keep);
    }
    forall k | 0 <= k < |s| && key(s[k]) == id
      ensures Filter(s, keep) == s[..k] + s[k + 1..]
    {
      FilterDropsOne(s, keep, k);
    }
  }

  /** A row whose key no other row has can be appended without breaking the
      key's uniqueness. */
  lemma DistinctAppend<T, K>(s: seq<T>, key: T -> K, x: T)
    requires DistinctBy(s, key)
    requires forall y :: y in s ==> key(y) != key(x)
    ensures DistinctBy(s + [x], key)
  {
    var t := s + [x];
    forall i, j | 0 <= i < j < |t| ensures key(t[i]) != key(t[j]) {
      if j == |s| {
        assert t[i] in s;
      } else {
        assert t[i] == s[i] && t[j] == s[j];
      }
    }
  }

  /** Deleting rows keeps the remaining keys unique. */
  lemma {:induction false} FilterDistinct<T, K>(s: seq<T>, keep: T -> bool, key: T -> K)
    requires DistinctBy(s, key)
    ensures DistinctBy(Filter(s, keep), key)
  {
    if s != [] {
      var s' := s[..|s| - 1];
      var x := s[|s| - 1];
      assert DistinctBy(s', key) by {
        forall i, j | 0 <= i < j < |s'| ensures key(s'[i]) != key(s'[j]) {
          assert s'[i] == s[i] && s'[j] == s[j];
        }
      }
      FilterDistinct(s', keep, key);
      if keep(x) {
        var r := Filter(s', keep);
        forall y | y in r ensures key(y) != key(x) {
          var k :| 0 <= k < |s'| && s'[k] == y;
          assert s[k] == y;
        }
        DistinctAppend(r, key, x);
      }
    }
  }
}
