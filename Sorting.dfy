/** Kotlin's `sortedByDescending { key }` / `sortByDescending { key }`: a
    STABLE sort, largest key first, elements with equal keys kept in their
    original order. */
module Sorting {

  /** `s` is ordered by `key`, largest first. */
  predicate SortedDesc<T>(s: seq<T>, key: T -> int)
  {
    forall i, j :: 0 <= i < j < |s| ==> key(s[i]) >= key(s[j])
  }

  /** The elements of `s` whose key is `k`, in order. */
  function WithKey<T>(s: seq<T>, key: T -> int, k: int): seq<T>
  {
    if s == [] then []
    else (if key(s[0]) == k then [s[0]] else []) + WithKey(s[1..], key, k)
  }

  /** Places `x` before the first element whose key is not larger than its own. */
  function InsertDesc<T>(x: T, s: seq<T>, key: T -> int): (r: seq<T>)
    ensures |r| == |s| + 1
  {
    if s == [] || key(x) >= key(s[0]) then [x] + s
    else [s[0]] + InsertDesc(x, s[1..], key)
  }

  function SortDesc<T>(s: seq<T>, key: T -> int): (r: seq<T>)
    ensures |r| == |s|
  {
    if s == [] then [] else InsertDesc(s[0], SortDesc(s[1..], key), key)
  }

  lemma {:induction false} InsertDescSorted<T>(x: T, s: seq<T>, key: T -> int)
    requires SortedDesc(s, key)
    ensures SortedDesc(InsertDesc(x, s, key), key)
    ensures forall i :: 0 <= i < |InsertDesc(x, s, key)| ==>
              InsertDesc(x, s, key)[i] == x || InsertDesc(x, s, key)[i] in s
  {
    if s != [] && key(x) < key(s[0]) {
      InsertDescSorted(x, s[1..], key);
      var r := InsertDesc(x, s[1..], key);
      forall i | 0 <= i < |r| ensures key(s[0]) >= key(r[i]) {
        if r[i] != x {
          var j :| 0 <= j < |s[1..]| && s[1..][j] == r[i];
        }
      }
    }
  }

  lemma {:induction false} InsertDescPermutes<T>(x: T, s: seq<T>, key: T -> int)
    ensures multiset(InsertDesc(x, s, key)) == multiset{x} + multiset(s)
  {
    if s != [] && key(x) < key(s[0]) {
      InsertDescPermutes(x, s[1..], key);
      assert s == [s[0]] + s[1..];
    }
  }

  /** Inserting `x` into a sorted sequence puts it in front of every element
      with the same key. */
  lemma {:induction false} InsertDescStable<T>(x: T, s: seq<T>, key: T -> int, k: int)
    requires SortedDesc(s, key)
    ensures WithKey(InsertDesc(x, s, key), key, k) == (if key(x) == k then [x] else []) + WithKey(s, key, k)
  {
    if s != [] {
      var r := InsertDesc(x, s, key);
      if key(x) >= key(s[0]) {
        assert r[0] == x && r[1..] == s;
      } else {
        assert SortedDesc(s[1..], key) by {
          forall i, j | 0 <= i < j < |s[1..]| ensures key(s[1..][i]) >= key(s[1..][j]) {
            assert s[1..][i] == s[i + 1] && s[1..][j] == s[j + 1];
          }
        }
        InsertDescStable(x, s[1..], key, k);
        assert r[0] == s[0] && r[1..] == InsertDesc(x, s[1..], key);
        assert WithKey(r, key, k) == (if key(s[0]) == k then [s[0]] else []) + WithKey(r[1..], key, k);
        assert WithKey(s, key, k) == (if key(s[0]) == k then [s[0]] else []) + WithKey(s[1..], key, k);
      }
    }
  }

  /** The sort orders by key, largest first, keeps every element with its
      multiplicity, and keeps elements of equal key in their original order. */
  lemma {:induction false} SortDescCorrect<T>(s: seq<T>, key: T -> int)
    ensures SortedDesc(SortDesc(s, key), key)
    ensures multiset(SortDesc(s, key)) == multiset(s)
    ensures forall k :: WithKey(SortDesc(s, key), key, k) == WithKey(s, key, k)
  {
    if s != [] {
      SortDescCorrect(s[1..], key);
      InsertDescSorted(s[0], SortDesc(s[1..], key), key);
      InsertDescPermutes(s[0], SortDesc(s[1..], key), key);
      assert s == [s[0]] + s[1..];
      forall k ensures WithKey(SortDesc(s, key), key, k) == WithKey(s, key, k) {
        InsertDescStable(s[0], SortDesc(s[1..], key), key, k);
      }
    }
  }

  /** No two elements of `s` agree on `f`. */
  ghost predicate DistinctBy<T, U>(s: seq<T>, f: T -> U)
  {
    forall i, j :: 0 <= i < j < |s| ==> f(s[i]) != f(s[j])
  }

  lemma {:induction false} InsertDescDistinctBy<T, U>(x: T, s: seq<T>, key: T -> int, f: T -> U)
    requires DistinctBy(s, f)
    requires forall y :: y in s ==> f(y) != f(x)
    ensures DistinctBy(InsertDesc(x, s, key), f)
    ensures forall y :: y in InsertDesc(x, s, key) ==> y == x || y in s
  {
    if s != [] && key(x) < key(s[0]) {
      InsertDescDistinctBy(x, s[1..], key, f);
      var r := InsertDesc(x, s[1..], key);
      forall y | y in r ensures f(s[0]) != f(y) {
        if y != x {
          var j :| 0 <= j < |s[1..]| && s[1..][j] == y;
          assert s[j + 1] == y;
        }
      }
    }
  }

  /** Sorting keeps elements that differ in `f` apart: it only reorders. */
  lemma {:induction false} SortDescDistinctBy<T, U>(s: seq<T>, key: T -> int, f: T -> U)
    requires DistinctBy(s, f)
    ensures DistinctBy(SortDesc(s, key), f)
    ensures forall y :: y in SortDesc(s, key) <==> y in s
  {
    if s != [] {
      SortDescDistinctBy(s[1..], key, f);
      SortDescCorrect(s, key);
      SortDescCorrect(s[1..], key);
      forall y | y in SortDesc(s[1..], key) ensures f(y) != f(s[0]) {
        assert y in multiset(SortDesc(s[1..], key));
        var j :| 0 <= j < |s[1..]| && s[1..][j] == y;
        assert s[j + 1] == y;
      }
      InsertDescDistinctBy(s[0], SortDesc(s[1..], key), key, f);
      forall y ensures y in SortDesc(s, key) <==> y in s {
        assert y in SortDesc(s, key) <==> y in multiset(SortDesc(s, key));
      }
    }
  }
}
