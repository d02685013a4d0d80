/** Python's `sorted(xs, key=...)` restricted to keys that are pairs compared lexicographically
    (a `bool` key component is 0 for `False` and 1 for `True`; `reverse=True` on a numeric key is a negated key).
    Python's sort is stable; this module proves that the insertion sort below is a stable, ordered permutation. */
module Sorting {

  datatype Key = Key(major: int, minor: int)

  /** Lexicographic order on keys, as Python compares tuples. */
  predicate KeyLe(a: Key, b: Key) {
    a.major < b.major || (a.major == b.major && a.minor <= b.minor)
  }

  predicate SortedBy<T>(s: seq<T>, key: T -> Key) {
    forall i, j :: 0 <= i < j < |s| ==> KeyLe(key(s[i]), key(s[j]))
  }

  /** Places `x` in front of the first element whose key is not smaller than its own. */
  function Insert<T>(x: T, s: seq<T>, key: T -> Key): (r: seq<T>)
    ensures |r| == |s| + 1
  {
    if |s| == 0 || KeyLe(key(x), key(s[0])) then [x] + s
    else [s[0]] + Insert(x, s[1..], key)
  }

  /** Stable sort by `key`: each element is inserted in front of the elements that followed it. */
  function SortBy<T>(s: seq<T>, key: T -> Key): (r: seq<T>)
    ensures |r| == |s|
  {
    if |s| == 0 then [] else Insert(s[0], SortBy(s[1..], key), key)
  }

  /** The elements of `s` whose key is `k`, in their order in `s`. */
  function WithKey<T>(s: seq<T>, key: T -> Key, k: Key): seq<T> {
    if |s| == 0 then [] else (if key(s[0]) == k then [s[0]] else []) + WithKey(s[1..], key, k)
  }

  function SumBy<T>(s: seq<T>, f: T -> int): int {
    if |s| == 0 then 0 else f(s[0]) + SumBy(s[1..], f)
  }

  lemma {:induction false} InsertPermutes<T>(x: T, s: seq<T>, key: T -> Key)
    ensures multiset(Insert(x, s, key)) == multiset{x} + multiset(s)
    decreases |s|
  {
    if |s| > 0 && !KeyLe(key(x), key(s[0])) {
      InsertPermutes(x, s[1..], key);
      assert s == [s[0]] + s[1..];
    }
  }

  lemma {:induction false} InsertSorted<T>(x: T, s: seq<T>, key: T -> Key)
    requires SortedBy(s, key)
    ensures SortedBy(Insert(x, s, key), key)
    decreases |s|
  {
    if |s| > 0 && !KeyLe(key(x), key(s[0])) {
      InsertSorted(x, s[1..], key);
      InsertPermutes(x, s[1..], key);
      var t := Insert(x, s[1..], key);
      forall j | 0 <= j < |t| ensures KeyLe(key(s[0]), key(t[j])) {
        assert t[j] in multiset(t);
        assert t[j] == x || t[j] in multiset(s[1..]);
      }
    }
  }

  lemma {:induction false} InsertWithKey<T>(x: T, s: seq<T>, key: T -> Key, k: Key)
    ensures WithKey(Insert(x, s, key), key, k)
         == (if key(x) == k then [x] else []) + WithKey(s, key, k)
    decreases |s|
  {
    if |s| == 0 || KeyLe(key(x), key(s[0])) {
      assert ([x] + s)[1..] == s;
    } else {
      InsertWithKey(x, s[1..], key, k);
      assert ([s[0]] + Insert(x, s[1..], key))[1..] == Insert(x, s[1..], key);
    }
  }

  lemma {:induction false} InsertSum<T>(x: T, s: seq<T>, key: T -> Key, f: T -> int)
    ensures SumBy(Insert(x, s, key), f) == f(x) + SumBy(s, f)
    decreases |s|
  {
    if |s| == 0 || KeyLe(key(x), key(s[0])) {
      assert ([x] + s)[1..] == s;
    } else {
      InsertSum(x, s[1..], key, f);
      assert ([s[0]] + Insert(x, s[1..], key))[1..] == Insert(x, s[1..], key);
    }
  }

  /** The sorted list holds exactly the input's elements, with the same multiplicities. */
  lemma {:induction false} SortByPermutes<T>(s: seq<T>, key: T -> Key)
    ensures multiset(SortBy(s, key)) == multiset(s)
    decreases |s|
  {
    if |s| > 0 {
      SortByPermutes(s[1..], key);
      InsertPermutes(s[0], SortBy(s[1..], key), key);
      assert s == [s[0]] + s[1..];
    }
  }

  /** The sorted list is in non-decreasing key order. */
  lemma {:induction false} SortBySorted<T>(s: seq<T>, key: T -> Key)
    ensures SortedBy(SortBy(s, key), key)
    decreases |s|
  {
    if |s| > 0 {
      SortBySorted(s[1..], key);
      InsertSorted(s[0], SortBy(s[1..], key), key);
    }
  }

  /** Stability: the elements that share a key keep their relative input order. */
  lemma {:induction false} SortByStable<T>(s: seq<T>, key: T -> Key, k: Key)
    ensures WithKey(SortBy(s, key), key, k) == WithKey(s, key, k)
    decreases |s|
  {
    if |s| > 0 {
      SortByStable(s[1..], key, k);
      InsertWithKey(s[0], SortBy(s[1..], key), key, k);
    }
  }

  /** Sorting does not change a sum over the elements. */
  lemma {:induction false} SortBySum<T>(s: seq<T>, key: T -> Key, f: T -> int)
    ensures SumBy(SortBy(s, key), f) == SumBy(s, f)
    decreases |s|
  {
    if |s| > 0 {
      SortBySum(s[1..], key, f);
      InsertSum(s[0], SortBy(s[1..], key), key, f);
    }
  }

  /** The first sorted element has the least key of all input elements. */
  lemma SortByFirstIsLeast<T>(s: seq<T>, key: T -> Key)
    requires |s| > 0
    ensures SortBy(s, key)[0] in multiset(s)
    ensures forall x :: x in multiset(s) ==> KeyLe(key(SortBy(s, key)[0]), key(x))
  {
    var r := SortBy(s, key);
    SortByPermutes(s, key);
    SortBySorted(s, key);
    assert r[0] in multiset(r);
    forall x | x in multiset(s) ensures KeyLe(key(r[0]), key(x)) {
      assert x in multiset(r);
      var j :| 0 <= j < |r| && r[j] == x;
      if j > 0 {
        assert KeyLe(key(r[0]), key(r[j]));
      } else {
        assert KeyLe(key(r[0]), key(r[0]));
      }
    }
  }

  lemma {:induction false} WithKeyMember<T>(s: seq<T>, key: T -> Key, k: Key, m: nat)
    requires m < |s| && key(s[m]) == k
    ensures s[m] in WithKey(s, key, k)
    decreases m
  {
    if m > 0 {
      assert s[1..][m - 1] == s[m];
      WithKeyMember(s[1..], key, k, m - 1);
    }
  }

  lemma {:induction false} WithKeyFromInput<T>(s: seq<T>, key: T -> Key, k: Key, x: T)
    requires x in WithKey(s, key, k)
    ensures exists i :: 0 <= i < |s| && s[i] == x
    decreases |s|
  {
    if key(s[0]) != k || WithKey(s, key, k)[0] != x {
      if x != s[0] {
        WithKeyFromInput(s[1..], key, k, x);
        var i :| 0 <= i < |s[1..]| && s[1..][i] == x;
        assert s[i + 1] == x;
      }
    } else {
      assert s[0] == x;
    }
  }

  /** Two elements with key `k` appear in `WithKey` in the order they appear in the input. */
  lemma {:induction false} WithKeyKeepsOrder<T>(s: seq<T>, key: T -> Key, k: Key, i: nat, j: nat)
    requires i < j < |s| && key(s[i]) == k && key(s[j]) == k
    ensures exists a, b :: 0 <= a < b < |WithKey(s, key, k)|
                           && WithKey(s, key, k)[a] == s[i] && WithKey(s, key, k)[b] == s[j]
    decreases i
  {
    var w := WithKey(s, key, k);
    var rest := WithKey(s[1..], key, k);
    assert s[1..][j - 1] == s[j];
    if i == 0 {
      WithKeyMember(s[1..], key, k, j - 1);
      var b :| 0 <= b < |rest| && rest[b] == s[j];
      assert w[0] == s[0] && w[b + 1] == s[j];
    } else {
      assert s[1..][i - 1] == s[i];
      WithKeyKeepsOrder(s[1..], key, k, i - 1, j - 1);
      var a, b :| 0 <= a < b < |rest| && rest[a] == s[i] && rest[b] == s[j];
      var d := |w| - |rest|;
      assert w[a + d] == s[i] && w[b + d] == s[j];
    }
  }

  /** Two elements of `WithKey` appear in the input in the order they appear in `WithKey`. */
  lemma {:induction false} WithKeyOrderFromInput<T>(s: seq<T>, key: T -> Key, k: Key, a: nat, b: nat)
    requires a < b < |WithKey(s, key, k)|
    ensures exists i, j :: 0 <= i < j < |s| && s[i] == WithKey(s, key, k)[a] && s[j] == WithKey(s, key, k)[b]
    decreases |s|
  {
    var w := WithKey(s, key, k);
    var rest := WithKey(s[1..], key, k);
    if key(s[0]) == k && a == 0 {
      assert w[b] == rest[b - 1];
      WithKeyFromInput(s[1..], key, k, w[b]);
      var j :| 0 <= j < |s[1..]| && s[1..][j] == w[b];
      assert s[0] == w[0] && s[j + 1] == w[b];
    } else {
      var d := |w| - |rest|;
      assert d == (if key(s[0]) == k then 1 else 0);
      assert w[a] == rest[a - d] && w[b] == rest[b - d];
      WithKeyOrderFromInput(s[1..], key, k, a - d, b - d);
      var i, j :| 0 <= i < j < |s[1..]| && s[1..][i] == rest[a - d] && s[1..][j] == rest[b - d];
      assert s[i + 1] == w[a] && s[j + 1] == w[b];
    }
  }
}
