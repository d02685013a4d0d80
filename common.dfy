/** Small value types and Python sequence-slicing helpers shared by every module. */
module Common {

  /** A Python value that may be absent (a missing dict key, or `None`). */
  datatype Option<+T> = None | Some(value: T)

  /** Python's `s[-n:]` for a positive window `n`: the last `n` elements, or all of them when there are fewer. */
  function Last<T>(s: seq<T>, n: nat): (r: seq<T>)
    ensures |r| == if |s| <= n then |s| else n
    ensures r == s[|s| - |r|..]
  {
    if |s| <= n then s else s[|s| - n..]
  }

  /** Python's `s[:n]` for any integer `n`: a negative `n` counts from the end and is clamped at 0. */
  function PySliceTo<T>(s: seq<T>, n: int): (r: seq<T>)
    ensures 0 <= n ==> |r| == (if n <= |s| then n else |s|)
    ensures n < 0 ==> |r| == (if -n <= |s| then |s| + n else 0)
    ensures r == s[..|r|]
  {
    if 0 <= n then
      if n <= |s| then s[..n] else s
    else
      if -n <= |s| then s[..|s| + n] else []
  }

  /** Trimming before or after an append gives the same window: a bounded buffer that is trimmed on every
      append always holds the last `n` elements of everything ever appended. */
  lemma {:induction false} LastOfLast<T>(s: seq<T>, x: T, n: nat)
    requires 0 < n
    ensures Last(Last(s, n) + [x], n) == Last(s + [x], n)
  {
    var w := Last(s, n);
    if |s| > n {
      assert w + [x] == (s + [x])[|s| - n..];
      assert Last(w + [x], n) == (w + [x])[1..];
      assert (w + [x])[1..] == (s + [x])[|s| + 1 - n..];
    }
  }

  /** A Python list comprehension with a condition: the elements of `s` that satisfy `keep`, in order. */
  function Filter<T(!new)>(s: seq<T>, keep: T -> bool): (r: seq<T>)
    ensures |r| <= |s|
    ensures forall i :: 0 <= i < |r| ==> keep(r[i])
    ensures (forall i :: 0 <= i < |s| ==> keep(s[i])) ==> r == s
  {
    if |s| == 0 then []
    else
      assert s == [s[0]] + s[1..];
      (if keep(s[0]) then [s[0]] else []) + Filter(s[1..], keep)
  }

  /** Filtering keeps every kept element as often as it occurs. */
  lemma {:induction false} FilterCounts<T(!new)>(s: seq<T>, keep: T -> bool, x: T)
    requires keep(x)
    ensures multiset(Filter(s, keep))[x] == multiset(s)[x]
    decreases |s|
  {
    if |s| > 0 {
      assert s == [s[0]] + s[1..];
      FilterCounts(s[1..], keep, x);
    }
  }

  predicate Distinct<T(==)>(s: seq<T>) {
    forall i, j :: 0 <= i < j < |s| ==> s[i] != s[j]
  }

  lemma {:induction false} DistinctCountsOnce<T>(s: seq<T>, x: T)
    requires Distinct(s)
    ensures multiset(s)[x] <= 1
    decreases |s|
  {
    if |s| > 0 {
      assert s == [s[0]] + s[1..];
      assert Distinct(s[1..]) by {
        forall i, j | 0 <= i < j < |s[1..]| ensures s[1..][i] != s[1..][j] {
          assert s[1..][i] == s[i + 1] && s[1..][j] == s[j + 1];
        }
      }
      DistinctCountsOnce(s[1..], x);
      if x == s[0] {
        assert x !in s[1..] by {
          forall j | 0 <= j < |s[1..]| ensures s[1..][j] != x {
            assert s[1..][j] == s[j + 1];
          }
        }
      }
    }
  }

  lemma TwiceCountsTwice<T>(s: seq<T>, i: nat, j: nat)
    requires i < j < |s| && s[i] == s[j]
    ensures multiset(s)[s[i]] >= 2
  {
    assert s == s[..j] + [s[j]] + s[j + 1..];
    assert s[i] in s[..j];
  }

  /** A permutation of a list without repetitions has no repetitions. */
  lemma PermutationKeepsDistinct<T>(a: seq<T>, b: seq<T>)
    requires multiset(a) == multiset(b) && Distinct(a)
    ensures Distinct(b)
  {
    forall i, j | 0 <= i < j < |b| ensures b[i] != b[j] {
      if b[i] == b[j] {
        TwiceCountsTwice(b, i, j);
        DistinctCountsOnce(a, b[i]);
      }
    }
  }

  /** A decoded JSON value as the handlers see it. `JOther` stands for the floats, lists and objects the
      handlers only test for truthiness; its flag is that truthiness. */
  datatype Json = JNull | JBool(b: bool) | JInt(i: int) | JStr(s: string) | JOther(truthy: bool)

  /** Python's truth value of a decoded JSON value. */
  predicate Truthy(v: Json) {
    match v
    case JNull => false
    case JBool(b) => b
    case JInt(i) => i != 0
    case JStr(s) => s != []
    case JOther(t) => t
  }

  /** `d.get(key, default)` */
  function Get(d: map<string, Json>, key: string, default: Json): (v: Json)
    ensures key in d ==> v == d[key]
    ensures key !in d ==> v == default
  {
    if key in d then d[key] else default
  }

  function DigitChar(d: nat): char
    requires d < 10
  {
    "0123456789"[d]
  }

  /** Python's `str(n)` for a natural number. */
  function NatToString(n: nat): (r: string)
    ensures |r| > 0
  {
    if n < 10 then [DigitChar(n)] else NatToString(n / 10) + [DigitChar(n % 10)]
  }

  /** Storing under a key twice keeps only the second value. */
  lemma OverwriteTwice<K, V>(m: map<K, V>, k: K, a: V, b: V)
    ensures m[k := a][k := b] == m[k := b]
  {
  }
}
