/** String comparison as JavaScript's relational operators do it, and a stable sort by a
    string key. */
module Sorting {

  /** `a < b` on two strings: lexicographic by character code, a proper prefix first. */
  predicate StrLess(a: string, b: string)
    decreases |a|
  {
    if a == [] then b != []
    else if b == [] then false
    else if a[0] != b[0] then a[0] < b[0]
    else StrLess(a[1..], b[1..])
  }

  lemma {:induction false} StrLessIrreflexive(a: string)
    ensures !StrLess(a, a)
    decreases |a|
  {
    if a != [] {
      StrLessIrreflexive(a[1..]);
    }
  }

  lemma {:induction false} StrLessAsymmetric(a: string, b: string)
    ensures StrLess(a, b) ==> !StrLess(b, a)
    decreases |a|
  {
    if a != [] && b != [] && a[0] == b[0] {
      StrLessAsymmetric(a[1..], b[1..]);
    }
  }

  lemma {:induction false} StrLessTransitive(a: string, b: string, c: string)
    requires StrLess(a, b) && StrLess(b, c)
    ensures StrLess(a, c)
    decreases |a|
  {
    if a != [] && a[0] == b[0] && b[0] == c[0] {
      StrLessTransitive(a[1..], b[1..], c[1..]);
    }
  }

  /** Two different strings are ordered one way or the other. */
  lemma {:induction false} StrLessTotal(a: string, b: string)
    ensures a == b || StrLess(a, b) || StrLess(b, a)
    decreases |a|
  {
    if a != [] && b != [] && a[0] == b[0] {
      StrLessTotal(a[1..], b[1..]);
      if a[1..] == b[1..] {
        assert a == [a[0]] + a[1..] && b == [b[0]] + b[1..];
      }
    }
  }

  /** `!(a > b)`: `a` may stay in front of `b`. */
  predicate StrLe(a: string, b: string) {
    !StrLess(b, a)
  }

  lemma StrLeTransitive(a: string, b: string, c: string)
    requires StrLe(a, b) && StrLe(b, c)
    ensures StrLe(a, c)
  {
    if StrLess(c, a) {
      StrLessTotal(a, b);
      StrLessTotal(b, c);
      if a == b {
      } else if StrLess(a, b) {
        StrLessTransitive(c, a, b);
      } else {
        StrLessTransitive(b, c, a);
      }
    }
  }

  lemma StrLeAntisymmetric(a: string, b: string)
    requires StrLe(a, b) && StrLe(b, a)
    ensures a == b
  {
    StrLessTotal(a, b);
  }

  /** Each element's key is at most every later element's. */
  predicate SortedBy<T>(xs: seq<T>, key: T -> string) {
    forall i, j :: 0 <= i < j < |xs| ==> StrLe(key(xs[i]), key(xs[j]))
  }

  /** No two positions share a key. */
  predicate DistinctKeys<T>(xs: seq<T>, key: T -> string) {
    forall i, j :: 0 <= i < j < |xs| ==> key(xs[i]) != key(xs[j])
  }

  /** `x` placed in front of the first element whose key is not smaller than its own. */
  function Insert<T>(x: T, xs: seq<T>, key: T -> string): (r: seq<T>)
    ensures multiset(r) == multiset{x} + multiset(xs)
    ensures |r| == |xs| + 1
  {
    if xs == [] then [x]
    else if StrLe(key(x), key(xs[0])) then [x] + xs
    else
      assert xs == [xs[0]] + xs[1..];
      [xs[0]] + Insert(x, xs[1..], key)
  }

  lemma {:induction false} InsertSorted<T>(x: T, xs: seq<T>, key: T -> string)
    requires SortedBy(xs, key)
    ensures SortedBy(Insert(x, xs, key), key)
    decreases |xs|
  {
    if xs != [] {
      if StrLe(key(x), key(xs[0])) {
        ConsSorted(x, xs, key);
      } else {
        InsertSorted(x, xs[1..], key);
        var rest := Insert(x, xs[1..], key);
        StrLessTotal(key(x), key(xs[0]));
        StrLessAsymmetric(key(xs[0]), key(x));
        forall e | e in rest ensures StrLe(key(xs[0]), key(e)) {
          assert e in multiset(rest);
          if e != x {
            assert e in multiset(xs[1..]);
            var j :| 0 <= j < |xs[1..]| && xs[1..][j] == e;
            assert xs[j + 1] == e;
          }
        }
        LeastConsSorted(xs[0], rest, key);
      }
    }
  }

  /** An element at most the head of a sorted sequence may go in front of it. */
  lemma ConsSorted<T>(x: T, xs: seq<T>, key: T -> string)
    requires xs != [] && SortedBy(xs, key) && StrLe(key(x), key(xs[0]))
    ensures SortedBy([x] + xs, key)
  {
    var r := [x] + xs;
    forall i, j | 0 <= i < j < |r| ensures StrLe(key(r[i]), key(r[j])) {
      if i == 0 && j > 1 {
        StrLeTransitive(key(x), key(xs[0]), key(xs[j - 1]));
      } else if i > 0 {
        assert r[i] == xs[i - 1] && r[j] == xs[j - 1];
      }
    }
  }

  /** An element at most every element of a sorted sequence may go in front of it. */
  lemma LeastConsSorted<T>(x: T, xs: seq<T>, key: T -> string)
    requires SortedBy(xs, key) && forall e :: e in xs ==> StrLe(key(x), key(e))
    ensures SortedBy([x] + xs, key)
  {
    var r := [x] + xs;
    forall i, j | 0 <= i < j < |r| ensures StrLe(key(r[i]), key(r[j])) {
      if i == 0 {
        assert r[j] == xs[j - 1];
        assert xs[j - 1] in xs;
      } else {
        assert r[i] == xs[i - 1] && r[j] == xs[j - 1];
      }
    }
  }

  /** A stable insertion sort by key: an element stays in front of a later one with the same
      key. */
  function SortBy<T>(xs: seq<T>, key: T -> string): (r: seq<T>)
    ensures multiset(r) == multiset(xs)
    ensures |r| == |xs|
  {
    if xs == [] then []
    else
      assert xs == [xs[0]] + xs[1..];
      Insert(xs[0], SortBy(xs[1..], key), key)
  }

  /** The sort puts the keys in order. */
  lemma {:induction false} SortBySorted<T>(xs: seq<T>, key: T -> string)
    ensures SortedBy(SortBy(xs, key), key)
    decreases |xs|
  {
    if xs != [] {
      SortBySorted(xs[1..], key);
      InsertSorted(xs[0], SortBy(xs[1..], key), key);
    }
  }

  lemma SortedTail<T>(xs: seq<T>, key: T -> string)
    requires xs != [] && SortedBy(xs, key)
    ensures SortedBy(xs[1..], key)
  {
    forall i, j | 0 <= i < j < |xs[1..]| ensures StrLe(key(xs[1..][i]), key(xs[1..][j])) {
      assert xs[1..][i] == xs[i + 1] && xs[1..][j] == xs[j + 1];
    }
  }

  lemma DistinctTail<T>(xs: seq<T>, key: T -> string)
    requires xs != [] && DistinctKeys(xs, key)
    ensures DistinctKeys(xs[1..], key)
  {
    forall i, j | 0 <= i < j < |xs[1..]| ensures key(xs[1..][i]) != key(xs[1..][j]) {
      assert xs[1..][i] == xs[i + 1] && xs[1..][j] == xs[j + 1];
    }
  }

  /** The first element of a sorted sequence has the smallest key. */
  lemma SortedHeadIsLeast<T>(xs: seq<T>, key: T -> string, k: nat)
    requires SortedBy(xs, key) && k < |xs|
    ensures StrLe(key(xs[0]), key(xs[k]))
  {
    if k == 0 {
      StrLessIrreflexive(key(xs[0]));
    }
  }

  /** Two sorted rearrangements of the same elements with distinct keys start alike. */
  lemma SortedHeadsEqual<T>(a: seq<T>, b: seq<T>, key: T -> string)
    requires a != [] && multiset(a) == multiset(b)
    requires SortedBy(a, key) && SortedBy(b, key)
    requires DistinctKeys(a, key)
    ensures b != [] && a[0] == b[0]
  {
    assert a[0] in multiset(b);
    var k :| 0 <= k < |b| && b[k] == a[0];
    assert b[0] in multiset(a);
    var m :| 0 <= m < |a| && a[m] == b[0];
    SortedHeadIsLeast(a, key, m);
    SortedHeadIsLeast(b, key, k);
    StrLeAntisymmetric(key(a[0]), key(b[0]));
  }

  /** With distinct keys there is only one ordering the comparison accepts: two sorted
      rearrangements of the same elements are equal. */
  lemma {:induction false} SortedUnique<T>(a: seq<T>, b: seq<T>, key: T -> string)
    requires multiset(a) == multiset(b)
    requires SortedBy(a, key) && SortedBy(b, key)
    requires DistinctKeys(a, key)
    ensures a == b
    decreases |a|
  {
    assert |a| == |multiset(a)| == |b|;
    if a != [] {
      SortedHeadsEqual(a, b, key);
      assert a == [a[0]] + a[1..] && b == [b[0]] + b[1..];
      assert multiset(a[1..]) == multiset(a) - multiset{a[0]};
      assert multiset(b[1..]) == multiset(b) - multiset{a[0]};
      SortedTail(a, key);
      SortedTail(b, key);
      DistinctTail(a, key);
      SortedUnique(a[1..], b[1..], key);
    }
  }
}
