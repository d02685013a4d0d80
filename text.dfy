/** Python string primitives used by the route handlers: `str.lower()`, `str.strip()`, `str.split()`,
    `' '.join(...)`, the `in` substring test and the regular-expression classes `\s` and `\w`. */
module Text {

  /** Python's `str.isspace()`, which is also what `str.split()`, `str.strip()` and `\s` treat as whitespace. */
  predicate IsSpace(c: char) {
    || ('\t' <= c <= '\r')
    || ('\U{1c}' <= c <= '\U{1f}')
    || c == ' ' || c == '\U{85}' || c == '\U{a0}' || c == '\U{1680}'
    || ('\U{2000}' <= c <= '\U{200a}')
    || c == '\U{2028}' || c == '\U{2029}' || c == '\U{202f}' || c == '\U{205f}' || c == '\U{3000}'
  }

  /** The `\w` class up to U+00FF: the underscore and every character `str.isalnum()` accepts, that is the
      ASCII letters and digits, the Latin-1 letters, the ordinal indicators and the micro sign (U+00AA,
      U+00B5, U+00BA), the superscript digits (U+00B2, U+00B3, U+00B9) and the vulgar fractions
      (U+00BC to U+00BE). */
  predicate IsWordChar(c: char) {
    || ('a' <= c <= 'z') || ('A' <= c <= 'Z') || ('0' <= c <= '9') || c == '_'
    || ('\U{c0}' <= c <= '\U{ff}' && c != '\U{d7}' && c != '\U{f7}')
    || c == '\U{aa}' || c == '\U{b2}' || c == '\U{b3}' || c == '\U{b5}' || c == '\U{b9}' || c == '\U{ba}'
    || ('\U{bc}' <= c <= '\U{be}')
  }

  predicate IsUpper(c: char) {
    ('A' <= c <= 'Z') || ('\U{c0}' <= c <= '\U{de}' && c != '\U{d7}')
  }

  /** `str.lower()` on one character: upper-case ASCII and Latin-1 letters map to their lower-case partner. */
  function LowerChar(c: char): (r: char)
    ensures !IsUpper(r)
    ensures !IsUpper(c) ==> r == c
  {
    if IsUpper(c) then (c as int + 32) as char else c
  }

  function Lower(s: string): (r: string)
    ensures |r| == |s|
    ensures forall i :: 0 <= i < |s| ==> r[i] == LowerChar(s[i])
  {
    seq(|s|, i requires 0 <= i < |s| => LowerChar(s[i]))
  }

  /** `p` occurs in `s` starting at index `i`. */
  predicate OccursAt(s: string, p: string, i: nat) {
    i + |p| <= |s| && s[i..i + |p|] == p
  }

  /** Python's `p in s` for strings, written as the scan the interpreter performs. */
  predicate Contains(s: string, p: string)
    decreases |s|
  {
    p <= s || (|s| > 0 && Contains(s[1..], p))
  }

  /** The scan finds `p` exactly when `p` occurs somewhere in `s`. */
  lemma {:induction false} ContainsIff(s: string, p: string)
    ensures Contains(s, p) <==> exists i: nat :: OccursAt(s, p, i)
    decreases |s|
  {
    if p <= s {
      assert OccursAt(s, p, 0);
    } else if |s| == 0 {
      assert |p| > 0;
    } else {
      ContainsIff(s[1..], p);
      if Contains(s[1..], p) {
        var i: nat :| OccursAt(s[1..], p, i);
        assert s[1..][i..i + |p|] == s[i + 1..i + 1 + |p|];
        assert OccursAt(s, p, i + 1);
      } else {
        forall i: nat | OccursAt(s, p, i) ensures i == 0 || OccursAt(s[1..], p, i - 1) {
          if i > 0 {
            assert s[1..][i - 1..i - 1 + |p|] == s[i..i + |p|];
          }
        }
      }
    }
  }

  /** Every string contains the empty string, and a non-empty pattern is never found in the empty string. */
  lemma {:induction false} ContainsEdgeCases(s: string, p: string)
    ensures Contains(s, [])
    ensures |p| > 0 ==> !Contains([], p)
  {
  }

  /** A string with no whitespace at either end. */
  predicate Trimmed(s: string) {
    |s| == 0 || (!IsSpace(s[0]) && !IsSpace(s[|s| - 1]))
  }

  function TrimStart(s: string): (r: string)
    ensures |r| <= |s| && r == s[|s| - |r|..]
    ensures forall i :: 0 <= i < |s| - |r| ==> IsSpace(s[i])
    ensures |r| == 0 || !IsSpace(r[0])
    decreases |s|
  {
    if |s| > 0 && IsSpace(s[0]) then TrimStart(s[1..]) else s
  }

  function TrimEnd(s: string): (r: string)
    ensures |r| <= |s| && r == s[..|r|]
    ensures forall i :: |r| <= i < |s| ==> IsSpace(s[i])
    ensures |r| == 0 || !IsSpace(r[|r| - 1])
    decreases |s|
  {
    if |s| > 0 && IsSpace(s[|s| - 1]) then TrimEnd(s[..|s| - 1]) else s
  }

  /** `r` is `s` with some whitespace cut from the front and the back. */
  ghost predicate IsStripOf(s: string, r: string) {
    exists k: nat :: OccursAt(s, r, k)
      && (forall i :: 0 <= i < k ==> IsSpace(s[i]))
      && (forall i :: k + |r| <= i < |s| ==> IsSpace(s[i]))
  }

  /** Python's `str.strip()`: a contiguous piece of `s`, with only whitespace cut away on either side. */
  function Strip(s: string): (r: string)
    ensures Trimmed(r) && IsStripOf(s, r)
    ensures r == [] <==> forall i :: 0 <= i < |s| ==> IsSpace(s[i])
  {
    TrimBoth(s);
    TrimEnd(TrimStart(s))
  }

  lemma TrimBoth(s: string)
    ensures var r := TrimEnd(TrimStart(s));
            && Trimmed(r) && IsStripOf(s, r)
            && (r == [] <==> forall i :: 0 <= i < |s| ==> IsSpace(s[i]))
  {
    TrimBothIsStrip(s);
    TrimBothEmpty(s);
  }

  lemma TrimBothIsStrip(s: string)
    ensures IsStripOf(s, TrimEnd(TrimStart(s)))
  {
    var t := TrimStart(s);
    var r := TrimEnd(t);
    var k := |s| - |t|;
    assert t == s[k..];
    assert r == t[..|r|];
    assert r == s[k..k + |r|] by {
      forall j | 0 <= j < |r| ensures r[j] == s[k + j] {
        assert r[j] == t[j];
      }
    }
    assert OccursAt(s, r, k);
    assert forall i :: 0 <= i < k ==> IsSpace(s[i]);
    forall i | k + |r| <= i < |s| ensures IsSpace(s[i]) {
      assert s[i] == t[i - k];
    }
  }

  lemma TrimBothEmpty(s: string)
    ensures TrimEnd(TrimStart(s)) == [] <==> forall i :: 0 <= i < |s| ==> IsSpace(s[i])
  {
    var t := TrimStart(s);
    if TrimEnd(t) == [] {
      assert t == [];
    }
  }

  /** A word of `str.split()`: non-empty and free of whitespace. */
  predicate IsWord(w: string) {
    |w| > 0 && forall j :: 0 <= j < |w| ==> !IsSpace(w[j])
  }

  /** Length of the run of non-whitespace characters at the start of `s`. */
  function WordLen(s: string): (n: nat)
    ensures n <= |s|
    ensures forall i :: 0 <= i < n ==> !IsSpace(s[i])
    ensures n == |s| || IsSpace(s[n])
  {
    if |s| == 0 || IsSpace(s[0]) then 0 else 1 + WordLen(s[1..])
  }

  /** Python's `str.split()` with no separator: the maximal runs of non-whitespace characters, in order. */
  function Words(s: string): (ws: seq<string>)
    ensures forall w :: w in ws ==> IsWord(w)
    decreases |s|
  {
    if |s| == 0 then []
    else if IsSpace(s[0]) then Words(s[1..])
    else
      var n := WordLen(s);
      [s[..n]] + Words(s[n..])
  }

  function Concat(ws: seq<string>): string {
    if |ws| == 0 then [] else ws[0] + Concat(ws[1..])
  }

  function RemoveSpaces(s: string): (r: string)
    ensures forall j :: 0 <= j < |r| ==> !IsSpace(r[j])
  {
    if |s| == 0 then [] else (if IsSpace(s[0]) then [] else [s[0]]) + RemoveSpaces(s[1..])
  }

  lemma {:induction false} RemoveSpacesAppend(a: string, b: string)
    ensures RemoveSpaces(a + b) == RemoveSpaces(a) + RemoveSpaces(b)
    decreases |a|
  {
    if |a| > 0 {
      assert (a + b)[1..] == a[1..] + b;
      RemoveSpacesAppend(a[1..], b);
    } else {
      assert a + b == b;
    }
  }

  lemma {:induction false} RemoveSpacesOfWord(w: string)
    requires forall j :: 0 <= j < |w| ==> !IsSpace(w[j])
    ensures RemoveSpaces(w) == w
    decreases |w|
  {
    if |w| > 0 {
      RemoveSpacesOfWord(w[1..]);
    }
  }

  /** Splitting loses nothing but whitespace: the words, put back together, are `s` without its whitespace. */
  lemma {:induction false} WordsKeepEveryNonSpace(s: string)
    ensures Concat(Words(s)) == RemoveSpaces(s)
    decreases |s|
  {
    if |s| == 0 {
    } else if IsSpace(s[0]) {
      WordsKeepEveryNonSpace(s[1..]);
    } else {
      var n := WordLen(s);
      WordsKeepEveryNonSpace(s[n..]);
      assert s == s[..n] + s[n..];
      RemoveSpacesAppend(s[..n], s[n..]);
      RemoveSpacesOfWord(s[..n]);
    }
  }

  /** Python's `sep.join(ws)`. */
  function Join(ws: seq<string>, sep: string): (r: string)
    ensures |ws| == 0 ==> r == []
    ensures |ws| == 1 ==> r == ws[0]
    ensures |ws| > 0 ==> ws[0] <= r
  {
    if |ws| == 0 then [] else if |ws| == 1 then ws[0] else ws[0] + sep + Join(ws[1..], sep)
  }

  lemma {:induction false} WordLenOfWordThenSpace(w: string, rest: string)
    requires IsWord(w)
    ensures WordLen(w + " " + rest) == |w|
    decreases |w|
  {
    if |w| > 1 {
      assert (w + " " + rest)[1..] == w[1..] + " " + rest;
      WordLenOfWordThenSpace(w[1..], rest);
    } else {
      assert (w + " " + rest)[1..] == " " + rest;
    }
  }

  lemma {:induction false} WordLenOfWord(w: string)
    requires IsWord(w)
    ensures WordLen(w) == |w|
    decreases |w|
  {
    if |w| > 1 {
      WordLenOfWord(w[1..]);
    }
  }

  /** Joining words with single spaces and splitting again gives the same words back. */
  lemma {:induction false} WordsOfJoin(ws: seq<string>)
    requires forall w :: w in ws ==> IsWord(w)
    ensures Words(Join(ws, " ")) == ws
    decreases |ws|
  {
    if |ws| == 1 {
      var w := ws[0];
      WordLenOfWord(w);
      assert w[..|w|] == w && w[|w|..] == [];
    } else if |ws| > 1 {
      var w, rest := ws[0], Join(ws[1..], " ");
      var s := w + " " + rest;
      assert Join(ws, " ") == s;
      WordLenOfWordThenSpace(w, rest);
      assert s[..|w|] == w;
      assert s[|w|..] == " " + rest;
      assert Words(s[|w|..]) == Words(rest) by {
        assert (" " + rest)[1..] == rest;
      }
      assert ws[1..][0] == ws[1];
      WordsOfJoin(ws[1..]);
      assert ws == [w] + ws[1..];
    }
  }

  lemma {:induction false} ContainsTransitive(s: string, a: string, b: string)
    requires Contains(s, a) && Contains(a, b)
    ensures Contains(s, b)
  {
    ContainsIff(s, a);
    ContainsIff(a, b);
    var i: nat :| OccursAt(s, a, i);
    var j: nat :| OccursAt(a, b, j);
    assert a == s[i..i + |a|];
    forall t | 0 <= t < |b| ensures s[i + j + t] == b[t] {
      assert b[t] == a[j + t];
    }
    assert s[i + j..i + j + |b|] == b;
    assert OccursAt(s, b, i + j);
    ContainsIff(s, b);
  }

  /** Python's `any(w in s for w in words)`. */
  function ContainsAny(s: string, words: seq<string>): bool {
    if |words| == 0 then false else Contains(s, words[0]) || ContainsAny(s, words[1..])
  }

  /** `any` holds exactly when some word of the list occurs in `s`. */
  lemma {:induction false} ContainsAnyIff(s: string, words: seq<string>)
    ensures ContainsAny(s, words) <==> exists k :: 0 <= k < |words| && Contains(s, words[k])
    decreases |words|
  {
    if |words| > 0 {
      ContainsAnyIff(s, words[1..]);
      if ContainsAny(s, words[1..]) {
        var k :| 0 <= k < |words[1..]| && Contains(s, words[1..][k]);
        assert words[k + 1] == words[1..][k];
      }
      forall k | 1 <= k < |words| && Contains(s, words[k]) ensures ContainsAny(s, words[1..]) {
        assert words[1..][k - 1] == words[k];
      }
    }
  }

  /** Lowercasing twice is lowercasing once. */
  lemma LowerIdempotent(s: string)
    ensures Lower(Lower(s)) == Lower(s)
  {
  }
}
