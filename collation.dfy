/** `ORDER BY` under SQLite's default BINARY collation. Text compares byte by
    byte in UTF-8, which is the order of code points, i.e. Dafny's order on
    `char`; a proper prefix comes first. */
module Collation {

  /** `a <= b` as text under BINARY collation. */
  predicate NameLeq(a: string, b: string)
  {
    |a| == 0 || (|b| != 0 && (a[0] < b[0] || (a[0] == b[0] && NameLeq(a[1..], b[1..]))))
  }

  lemma {:induction false} NameLeqTotal(a: string, b: string)
    ensures NameLeq(a, b) || NameLeq(b, a)
  {
    if |a| != 0 && |b| != 0 && a[0] == b[0] {
      NameLeqTotal(a[1..], b[1..]);
    }
  }

  lemma {:induction false} NameLeqAntisymmetric(a: string, b: string)
    requires NameLeq(a, b) && NameLeq(b, a)
    ensures a == b
  {
    if |a| != 0 {
      NameLeqAntisymmetric(a[1..], b[1..]);
      assert a == [a[0]] + a[1..] && b == [b[0]] + b[1..];
    }
  }

  lemma {:induction false} NameLeqTransitive(a: string, b: string, c: string)
    requires NameLeq(a, b) && NameLeq(b, c)
    ensures NameLeq(a, c)
  {
    if |a| != 0 && a[0] == b[0] && b[0] == c[0] {
      NameLeqTransitive(a[1..], b[1..], c[1..]);
    }
  }

  /** The columns of an `ORDER BY`: up to two text columns, then an integer
      column (`ORDER BY c.nome, o.id`). Unused columns are left constant. */
  datatype SortKey = SortKey(first: string, second: string, serial: int)

  predicate KeyLeq(x: SortKey, y: SortKey)
  {
    if x.first != y.first then NameLeq(x.first, y.first)
    else if x.second != y.second then NameLeq(x.second, y.second)
    else x.serial <= y.serial
  }

  lemma KeyLeqTotal(x: SortKey, y: SortKey)
    ensures KeyLeq(x, y) || KeyLeq(y, x)
  {
    NameLeqTotal(x.first, y.first);
    NameLeqTotal(x.second, y.second);
  }

  lemma KeyLeqTransitive(x: SortKey, y: SortKey, z: SortKey)
    requires KeyLeq(x, y) && KeyLeq(y, z)
    ensures KeyLeq(x, z)
  {
    if x.first != y.first && y.first != z.first {
      NameLeqTransitive(x.first, y.first, z.first);
      if x.first == z.first {
        NameLeqAntisymmetric(x.first, y.first);
      }
    } else if x.first == y.first && y.first == z.first {
      if x.second != y.second && y.second != z.second {
        NameLeqTransitive(x.second, y.second, z.second);
        if x.second == z.second {
          NameLeqAntisymmetric(x.second, y.second);
        }
      }
    }
  }

  /** Each row's key is at most the next row's. */
  ghost predicate SortedBy<T>(s: seq<T>, key: T -> SortKey)
  {
    forall i :: 0 <= i < |s| - 1 ==> KeyLeq(key(s[i]), key(s[i + 1]))
  }

  /** Inserting one row into a sorted sequence, before the first row whose key
      is not smaller. */
  function InsertBy<T>(x: T, s: seq<T>, key: T -> SortKey): (r: seq<T>)
    requires SortedBy(s, key)
    ensures SortedBy(r, key)
    ensures multiset(r) == multiset(s) + multiset{x}
    ensures |r| == |s| + 1 && (r[0] == x || (s != [] && r[0] == s[0]))
  {
    if s == [] then [x]
    else if KeyLeq(key(x), key(s[0])) then [x] + s
    else
      KeyLeqTotal(key(x), key(s[0]));
      var rest := InsertBy(x, s[1..], key);
      assert KeyLeq(key(s[0]), key(rest[0]));
      assert s == [s[0]] + s[1..];
      [s[0]] + rest
  }

  /** The rows of `s` in key order (insertion sort; rows with equal keys
      keep their rowid order). */
  function SortBy<T>(s: seq<T>, key: T -> SortKey): (r: seq<T>)
    ensures SortedBy(r, key)
    ensures multiset(r) == multiset(s) && |r| == |s|
  {
    if s == [] then []
    else
      assert s == [s[0]] + s[1..];
      InsertBy(s[0], SortBy(s[1..], key), key)
  }

  /** Sorted by neighbours means sorted between any two positions. */
  lemma {:induction false} SortedPairwise<T>(s: seq<T>, key: T -> SortKey, i: int, j: int)
    requires SortedBy(s, key) && 0 <= i <= j < |s|
    ensures KeyLeq(key(s[i]), key(s[j]))
    decreases j - i
  {
    if i == j {
      KeyLeqTotal(key(s[i]), key(s[j]));
    } else {
      SortedPairwise(s, key, i + 1, j);
      KeyLeqTransitive(key(s[i]), key(s[i + 1]), key(s[j]));
    }
  }
}
