/** A stable sort in descending order of an integer key: the result of
    JavaScript's `Array.prototype.sort` with a comparator `(a, b) => key(b) - key(a)`,
    which is stable since ES2019. Sorted order, being a permutation, and keeping
    the input order among equal keys together fix the result uniquely. */
module Ordering {

  predicate SortedDesc<T>(s: seq<T>, key: T -> int) {
    forall i, j :: 0 <= i < j < |s| ==> key(s[i]) >= key(s[j])
  }

  /** The elements of `s` whose key is `k`, in their order in `s`. */
  function WithKey<T>(s: seq<T>, key: T -> int, k: int): seq<T> {
    if s == [] then []
    else (if key(s[0]) == k then [s[0]] else []) + WithKey(s[1..], key, k)
  }

  /** Places `x` after every element with a larger key and before the rest. */
  function Insert<T>(x: T, s: seq<T>, key: T -> int): seq<T> {
    if s == [] then [x]
    else if key(s[0]) > key(x) then [s[0]] + Insert(x, s[1..], key)
    else [x] + s
  }

  function SortDesc<T>(s: seq<T>, key: T -> int): seq<T> {
    if s == [] then [] else Insert(s[0], SortDesc(s[1..], key), key)
  }

  lemma {:induction false} InsertBound<T>(x: T, s: seq<T>, key: T -> int, b: int)
    requires key(x) <= b
    requires forall i :: 0 <= i < |s| ==> key(s[i]) <= b
    ensures forall j :: 0 <= j < |Insert(x, s, key)| ==> key(Insert(x, s, key)[j]) <= b
  {
    if s != [] && key(s[0]) > key(x) {
      InsertBound(x, s[1..], key, b);
    }
  }

  lemma {:induction false} InsertSorted<T>(x: T, s: seq<T>, key: T -> int)
    requires SortedDesc(s, key)
    ensures SortedDesc(Insert(x, s, key), key)
  {
    if s != [] && key(s[0]) > key(x) {
      var t := s[1..];
      InsertSorted(x, t, key);
      InsertBound(x, t, key, key(s[0]));
      var r := Insert(x, t, key);
      assert Insert(x, s, key) == [s[0]] + r;
    } else if s != [] {
      assert Insert(x, s, key) == [x] + s;
    }
  }

  lemma {:induction false} InsertPerm<T>(x: T, s: seq<T>, key: T -> int)
    ensures multiset(Insert(x, s, key)) == multiset(s) + multiset{x}
    ensures |Insert(x, s, key)| == |s| + 1
  {
    if s != [] && key(s[0]) > key(x) {
      var t := s[1..];
      assert s == [s[0]] + t;
      InsertPerm(x, t, key);
      var r := Insert(x, t, key);
      assert Insert(x, s, key) == [s[0]] + r;
      assert multiset([s[0]] + r) == multiset{s[0]} + multiset(r);
      assert multiset(s) == multiset{s[0]} + multiset(t);
    } else if s != [] {
      assert Insert(x, s, key) == [x] + s;
    }
  }

  /** The sort is ordered by non-increasing key and is a permutation. */
  lemma {:induction false} SortDescFacts<T>(s: seq<T>, key: T -> int)
    ensures SortedDesc(SortDesc(s, key), key)
    ensures multiset(SortDesc(s, key)) == multiset(s)
    ensures |SortDesc(s, key)| == |s|
  {
    if s != [] {
      SortDescFacts(s[1..], key);
      InsertSorted(s[0], SortDesc(s[1..], key), key);
      InsertPerm(s[0], SortDesc(s[1..], key), key);
      assert s == [s[0]] + s[1..];
    }
  }

  lemma {:induction false} WithKeyAppend<T>(a: seq<T>, b: seq<T>, key: T -> int, k: int)
    ensures WithKey(a + b, key, k) == WithKey(a, key, k) + WithKey(b, key, k)
  {
    if a != [] {
      assert (a + b)[0] == a[0];
      assert (a + b)[1..] == a[1..] + b;
      WithKeyAppend(a[1..], b, key, k);
    } else {
      assert a + b == b;
    }
  }

  lemma {:induction false} InsertWithKey<T>(x: T, s: seq<T>, key: T -> int, k: int)
    ensures WithKey(Insert(x, s, key), key, k) ==
            (if key(x) == k then [x] else []) + WithKey(s, key, k)
  {
    if s != [] && key(s[0]) > key(x) {
      InsertWithKey(x, s[1..], key, k);
      var r := Insert(x, s[1..], key);
      assert Insert(x, s, key) == [s[0]] + r;
      WithKeyAppend([s[0]], r, key, k);
      WithKeyAppend([s[0]], s[1..], key, k);
      assert s == [s[0]] + s[1..];
      if key(x) == k {
        assert WithKey([s[0]], key, k) == [];
      }
    } else {
      WithKeyAppend([x], s, key, k);
    }
  }

  /** Stability: the elements sharing any one key keep their input order. */
  lemma {:induction false} SortDescStable<T>(s: seq<T>, key: T -> int, k: int)
    ensures WithKey(SortDesc(s, key), key, k) == WithKey(s, key, k)
  {
    if s != [] {
      SortDescStable(s[1..], key, k);
      InsertWithKey(s[0], SortDesc(s[1..], key), key, k);
    }
  }

  /** The head of the sort is the earliest element with the largest key. */
  lemma {:induction false} SortDescHead<T>(s: seq<T>, key: T -> int) returns (i: nat)
    requires s != []
    ensures i < |s| && |SortDesc(s, key)| > 0 && SortDesc(s, key)[0] == s[i]
    ensures forall j :: 0 <= j < |s| ==> key(s[j]) <= key(s[i])
    ensures forall j :: 0 <= j < i ==> key(s[j]) < key(s[i])
  {
    var r := SortDesc(s[1..], key);
    if r != [] && key(r[0]) > key(s[0]) {
      var i' := SortDescHead(s[1..], key);
      i := i' + 1;
      forall j | 0 < j < |s| ensures key(s[j]) <= key(s[i]) {
        assert s[j] == s[1..][j - 1];
      }
      forall j | 0 < j < i ensures key(s[j]) < key(s[i]) {
        assert s[j] == s[1..][j - 1];
      }
    } else {
      i := 0;
      if s[1..] != [] {
        var i' := SortDescHead(s[1..], key);
        forall j | 0 < j < |s| ensures key(s[j]) <= key(s[0]) {
          assert s[j] == s[1..][j - 1];
        }
      }
    }
  }

  /** JavaScript's `slice(0, n)` on an array. */
  function Prefix<T>(s: seq<T>, n: nat): (r: seq<T>)
    ensures |r| <= n && |r| <= |s|
    ensures |s| <= n ==> r == s
    ensures r == s[..|r|]
  {
    if |s| <= n then s else s[..n]
  }
}
