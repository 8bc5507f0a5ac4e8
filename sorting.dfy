/**
 * Stable sorting by a lexicographic integer key, largest key first: the
 * meaning of a Rust `sort_by` whose comparator orders by several fields in
 * descending order. `sort_by` is a stable sort, so its result is the unique
 * sorted arrangement that keeps elements of equal key in their input order
 * (`StableSortUnique`); `SortBy` computes that arrangement by insertion.
 */
module Sorting {

  /** Lexicographic order on integer sequences: the first differing position decides, a proper prefix is smaller. */
  predicate LexLess(a: seq<int>, b: seq<int>)
    decreases |a|
  {
    |b| > 0 && (|a| == 0 || a[0] < b[0] || (a[0] == b[0] && LexLess(a[1..], b[1..])))
  }

  lemma {:induction false} LexIrreflexive(a: seq<int>)
    ensures !LexLess(a, a)
    decreases |a|
  {
    if |a| > 0 {
      LexIrreflexive(a[1..]);
    }
  }

  lemma {:induction false} LexTransitive(a: seq<int>, b: seq<int>, c: seq<int>)
    requires LexLess(a, b) && LexLess(b, c)
    ensures LexLess(a, c)
    decreases |a|
  {
    if |a| > 0 && a[0] == b[0] && b[0] == c[0] {
      LexTransitive(a[1..], b[1..], c[1..]);
    }
  }

  /** Any two keys are ordered one way or the other, or are equal. */
  lemma {:induction false} LexTotal(a: seq<int>, b: seq<int>)
    ensures LexLess(a, b) || a == b || LexLess(b, a)
    decreases |a|
  {
    if |a| > 0 && |b| > 0 && a[0] == b[0] {
      LexTotal(a[1..], b[1..]);
      if a[1..] == b[1..] {
        assert a == [a[0]] + a[1..] && b == [b[0]] + b[1..];
      }
    }
  }

  lemma LexAsymmetric(a: seq<int>, b: seq<int>)
    ensures !(LexLess(a, b) && LexLess(b, a))
  {
    if LexLess(a, b) && LexLess(b, a) {
      LexTransitive(a, b, a);
      LexIrreflexive(a);
    }
  }

  /** Descending by key: no element has a smaller key than a later one. */
  predicate Sorted<T>(s: seq<T>, key: T -> seq<int>)
  {
    forall i, j :: 0 <= i < j < |s| ==> !LexLess(key(s[i]), key(s[j]))
  }

  /** The elements of key `k`, in their order in `s`. */
  function Filter<T>(s: seq<T>, key: T -> seq<int>, k: seq<int>): seq<T>
  {
    if s == [] then [] else (if key(s[0]) == k then [s[0]] else []) + Filter(s[1..], key, k)
  }

  /** Places `x` after every element whose key is at least its own. */
  function Insert<T>(x: T, s: seq<T>, key: T -> seq<int>): (r: seq<T>)
    ensures |r| == |s| + 1
  {
    if s == [] then [x]
    else if LexLess(key(s[0]), key(x)) then [x] + s
    else [s[0]] + Insert(x, s[1..], key)
  }

  /** Insertion sort, taking the elements in input order. */
  function SortBy<T>(s: seq<T>, key: T -> seq<int>): (r: seq<T>)
    ensures |r| == |s|
  {
    if s == [] then [] else Insert(s[|s| - 1], SortBy(s[..|s| - 1], key), key)
  }

  // ---- permutation ----

  lemma {:induction false} InsertPermutes<T>(x: T, s: seq<T>, key: T -> seq<int>)
    ensures multiset(Insert(x, s, key)) == multiset(s) + multiset{x}
  {
    if s != [] && !LexLess(key(s[0]), key(x)) {
      InsertPermutes(x, s[1..], key);
      assert s == [s[0]] + s[1..];
    }
  }

  lemma {:induction false} SortByPermutes<T>(s: seq<T>, key: T -> seq<int>)
    ensures multiset(SortBy(s, key)) == multiset(s)
  {
    if s != [] {
      SortByPermutes(s[..|s| - 1], key);
      InsertPermutes(s[|s| - 1], SortBy(s[..|s| - 1], key), key);
      assert s == s[..|s| - 1] + [s[|s| - 1]];
    }
  }

  // ---- sortedness ----

  lemma {:induction false} InsertSorted<T>(x: T, s: seq<T>, key: T -> seq<int>)
    requires Sorted(s, key)
    ensures Sorted(Insert(x, s, key), key)
  {
    if s == [] {
    } else if LexLess(key(s[0]), key(x)) {
      var r := [x] + s;
      forall i, j | 0 <= i < j < |r| ensures !LexLess(key(r[i]), key(r[j])) {
        if i == 0 {
          if LexLess(key(x), key(r[j])) {
            if j == 1 {
              LexAsymmetric(key(s[0]), key(x));
            } else {
              assert !LexLess(key(s[0]), key(s[j - 1]));
              LexTotal(key(s[0]), key(s[j - 1]));
              if LexLess(key(s[j - 1]), key(s[0])) {
                LexTransitive(key(x), key(s[j - 1]), key(s[0]));
              }
              LexAsymmetric(key(s[0]), key(x));
            }
          }
        }
      }
    } else {
      InsertSorted(x, s[1..], key);
      var rest := Insert(x, s[1..], key);
      InsertPermutes(x, s[1..], key);
      var r := [s[0]] + rest;
      forall j | 0 < j < |r| ensures !LexLess(key(s[0]), key(r[j])) {
        assert r[j] in multiset(rest);
        assert r[j] == x || r[j] in multiset(s[1..]);
        if r[j] != x {
          var m :| 0 <= m < |s[1..]| && s[1..][m] == r[j];
          assert s[m + 1] == r[j];
        }
      }
    }
  }

  lemma {:induction false} SortBySorted<T>(s: seq<T>, key: T -> seq<int>)
    ensures Sorted(SortBy(s, key), key)
  {
    if s != [] {
      SortBySorted(s[..|s| - 1], key);
      InsertSorted(s[|s| - 1], SortBy(s[..|s| - 1], key), key);
    }
  }

  // ---- stability ----

  lemma {:induction false} FilterAppend<T>(a: seq<T>, b: seq<T>, key: T -> seq<int>, k: seq<int>)
    ensures Filter(a + b, key, k) == Filter(a, key, k) + Filter(b, key, k)
  {
    if a != [] {
      FilterAppend(a[1..], b, key, k);
      assert (a + b)[1..] == a[1..] + b;
    } else {
      assert a + b == b;
    }
  }

  /** In a sorted sequence led by a key smaller than `key(x)`, nothing has the key of `x`. */
  lemma {:induction false} SmallerHaveNoneOf<T>(s: seq<T>, key: T -> seq<int>, k: seq<int>)
    requires Sorted(s, key) && s != [] && LexLess(key(s[0]), k)
    ensures Filter(s, key, k) == []
  {
    LexIrreflexive(k);
    if |s| > 1 {
      assert !LexLess(key(s[0]), key(s[1]));
      LexTotal(key(s[0]), key(s[1]));
      if LexLess(key(s[1]), key(s[0])) {
        LexTransitive(key(s[1]), key(s[0]), k);
      }
      assert Sorted(s[1..], key);
      SmallerHaveNoneOf(s[1..], key, k);
    }
  }

  lemma {:induction false} InsertStable<T>(x: T, s: seq<T>, key: T -> seq<int>, k: seq<int>)
    requires Sorted(s, key)
    ensures Filter(Insert(x, s, key), key, k) == Filter(s, key, k) + (if key(x) == k then [x] else [])
  {
    if s == [] {
    } else if LexLess(key(s[0]), key(x)) {
      if key(x) == k {
        SmallerHaveNoneOf(s, key, k);
      }
      FilterAppend([x], s, key, k);
    } else {
      assert Sorted(s[1..], key);
      InsertStable(x, s[1..], key, k);
      assert Insert(x, s, key)[1..] == Insert(x, s[1..], key);
    }
  }

  /** Elements of equal key keep their input order. */
  lemma {:induction false} SortByStable<T>(s: seq<T>, key: T -> seq<int>, k: seq<int>)
    ensures Filter(SortBy(s, key), key, k) == Filter(s, key, k)
  {
    if s != [] {
      var init := s[..|s| - 1];
      var last := s[|s| - 1];
      SortByStable(init, key, k);
      SortBySorted(init, key);
      InsertStable(last, SortBy(init, key), key, k);
      assert s == init + [last];
      FilterAppend(init, [last], key, k);
    }
  }

  /** A sorted sequence is its own sort. */
  lemma {:induction false} SortBySortedIdentity<T>(s: seq<T>, key: T -> seq<int>)
    requires Sorted(s, key)
    ensures SortBy(s, key) == s
  {
    if s != [] {
      var init := s[..|s| - 1];
      assert Sorted(init, key);
      SortBySortedIdentity(init, key);
      InsertAtEnd(s[|s| - 1], init, key);
    }
  }

  lemma {:induction false} InsertAtEnd<T>(x: T, s: seq<T>, key: T -> seq<int>)
    requires forall i :: 0 <= i < |s| ==> !LexLess(key(s[i]), key(x))
    ensures Insert(x, s, key) == s + [x]
  {
    if s != [] {
      InsertAtEnd(x, s[1..], key);
      assert s == [s[0]] + s[1..];
    }
  }

  // ---- uniqueness: every stable sort gives the same result ----

  lemma {:induction false} FilterMembers<T>(s: seq<T>, key: T -> seq<int>, k: seq<int>, i: nat)
    requires i < |s| && key(s[i]) == k
    ensures Filter(s, key, k) != []
  {
    if i > 0 {
      FilterMembers(s[1..], key, k, i - 1);
    }
  }

  lemma {:induction false} FilterOnlyKey<T>(s: seq<T>, key: T -> seq<int>, k: seq<int>) returns (i: nat)
    requires Filter(s, key, k) != []
    ensures i < |s| && key(s[i]) == k
  {
    if key(s[0]) != k {
      i := FilterOnlyKey(s[1..], key, k);
      i := i + 1;
    } else {
      i := 0;
    }
  }

  lemma SameEmptiness<T>(a: seq<T>, b: seq<T>, key: T -> seq<int>)
    requires forall k :: Filter(a, key, k) == Filter(b, key, k)
    ensures a == [] <==> b == []
  {
    if a != [] {
      FilterMembers(a, key, key(a[0]), 0);
    }
    if b != [] {
      FilterMembers(b, key, key(b[0]), 0);
    }
  }

  /** In a sorted sequence the first key is a largest one. */
  lemma FirstIsMax<T>(s: seq<T>, key: T -> seq<int>, i: nat)
    requires Sorted(s, key) && i < |s|
    ensures !LexLess(key(s[0]), key(s[i]))
  {
    if i == 0 {
      LexIrreflexive(key(s[0]));
    }
  }

  /**
   * Two sorted sequences that agree on the elements of every key, in order,
   * are equal: the stable sort is unique.
   */
  lemma {:induction false} StableSortUnique<T>(a: seq<T>, b: seq<T>, key: T -> seq<int>)
    requires Sorted(a, key) && Sorted(b, key)
    requires forall k :: Filter(a, key, k) == Filter(b, key, k)
    ensures a == b
    decreases |a|
  {
    SameEmptiness(a, b, key);
    if a != [] {
      var ka, kb := key(a[0]), key(b[0]);
      FilterMembers(b, key, kb, 0);
      var i := FilterOnlyKey(a, key, kb);
      FilterMembers(a, key, ka, 0);
      var j := FilterOnlyKey(b, key, ka);
      FirstIsMax(a, key, i);
      FirstIsMax(b, key, j);
      LexTotal(ka, kb);
      assert ka == kb;
      assert Filter(a, key, ka) == [a[0]] + Filter(a[1..], key, ka);
      assert Filter(b, key, ka) == [b[0]] + Filter(b[1..], key, ka);
      assert a[0] == Filter(a, key, ka)[0] == b[0];
      forall k ensures Filter(a[1..], key, k) == Filter(b[1..], key, k) {
        var h := if ka == k then [a[0]] else [];
        assert Filter(a, key, k) == h + Filter(a[1..], key, k);
        assert Filter(b, key, k) == h + Filter(b[1..], key, k);
        assert (h + Filter(a[1..], key, k))[|h|..] == Filter(a[1..], key, k);
        assert (h + Filter(b[1..], key, k))[|h|..] == Filter(b[1..], key, k);
      }
      assert Sorted(a[1..], key) && Sorted(b[1..], key);
      StableSortUnique(a[1..], b[1..], key);
      assert a == [a[0]] + a[1..] && b == [b[0]] + b[1..];
    }
  }

  /** `SortBy` is sorted, a permutation, stable, and equal to every other stable sort of the same input. */
  lemma SortByIsTheStableSort<T>(s: seq<T>, r: seq<T>, key: T -> seq<int>)
    requires Sorted(r, key) && forall k :: Filter(r, key, k) == Filter(s, key, k)
    ensures r == SortBy(s, key)
  {
    SortBySorted(s, key);
    forall k ensures Filter(r, key, k) == Filter(SortBy(s, key), key, k) {
      SortByStable(s, key, k);
    }
    StableSortUnique(r, SortBy(s, key), key);
  }
}
