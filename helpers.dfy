/** The string helpers of the utilities module: truncation with a suffix, file-name sanitising, the e-mail
    and phone validators (hand-made recognizers for their regular expressions, proved equal to a
    declarative description of each language), and keyword extraction by frequency. */
module Helpers {
  import opened Common
  import opened Text
  import opened Sorting

  // ---------------------------------------------------------------------------------------------
  // truncate_text
  // ---------------------------------------------------------------------------------------------

  /** Text that fits is returned as is; longer text is cut at `maxLength - |suffix|` (a Python slice, so a
      negative bound counts from the end) and the suffix appended. */
  function TruncateText(text: string, maxLength: int, suffix: string): (r: string)
    ensures |text| <= maxLength ==> r == text
    ensures |text| > maxLength ==> |r| >= |suffix| && r[|r| - |suffix|..] == suffix
                                   && r[..|r| - |suffix|] <= text
  {
    if |text| <= maxLength then text else PySliceTo(text, maxLength - |suffix|) + suffix
  }

  /** When the limit leaves room for the suffix, a truncated text is exactly `maxLength` long: the first
      `maxLength - |suffix|` characters, then the suffix. */
  lemma TruncateFits(text: string, maxLength: int, suffix: string)
    requires |suffix| <= maxLength < |text|
    ensures var r := TruncateText(text, maxLength, suffix);
            |r| == maxLength && r == text[..maxLength - |suffix|] + suffix
  {
  }

  /** When the suffix is longer than the limit, the negative slice drops `|suffix| - maxLength` characters
      from the end of the text, and the result is longer than the limit. */
  lemma TruncateBelowSuffix(text: string, maxLength: int, suffix: string)
    requires maxLength < |suffix| && maxLength < |text|
    ensures var drop := |suffix| - maxLength;
            TruncateText(text, maxLength, suffix)
              == (if drop <= |text| then text[..|text| - drop] else []) + suffix
    ensures |TruncateText(text, maxLength, suffix)| > maxLength
  {
  }

  // ---------------------------------------------------------------------------------------------
  // sanitize_filename
  // ---------------------------------------------------------------------------------------------

  /** The characters the sanitiser deletes. */
  predicate IsUnsafe(c: char) {
    c in "<>:\"/\\|?*"
  }

  predicate IsSafe(c: char) {
    !IsUnsafe(c)
  }

  /** Index of the last occurrence of `c`. */
  function LastIndexOf(s: string, c: char): (r: Option<nat>)
    ensures r.None? ==> forall i :: 0 <= i < |s| ==> s[i] != c
    ensures r.Some? ==> r.value < |s| && s[r.value] == c && forall i :: r.value < i < |s| ==> s[i] != c
  {
    if |s| == 0 then None
    else if s[|s| - 1] == c then Some(|s| - 1)
    else LastIndexOf(s[..|s| - 1], c)
  }

  /** POSIX `os.path.splitext` on a name without separators: the extension starts at the last dot, provided
      some character before that dot is not a dot (so `.bashrc` and `..` have no extension). */
  function SplitExt(p: string): (r: (string, string))
    ensures r.0 + r.1 == p
    ensures r.1 == [] || (r.1[0] == '.' && forall i :: 1 <= i < |r.1| ==> r.1[i] != '.')
    ensures r.1 != [] ==> exists i :: 0 <= i < |r.0| && r.0[i] != '.'
    ensures r.1 == [] <==> forall i, d :: 0 <= i < d < |p| && p[d] == '.' ==> p[i] == '.'
  {
    match LastIndexOf(p, '.')
    case None => (p, [])
    case Some(d) =>
      if exists i :: 0 <= i < d && p[i] != '.' then
        assert p[..d] + p[d..] == p;
        (p[..d], p[d..])
      else
        (p, [])
  }

  /** The stem limit. */
  const MaxStemLength: nat := 50

  /** The stem cut to the limit, then the extension. */
  function CutStem(stem: string, ext: string): (r: string)
    ensures |r| == |ext| + (if |stem| <= MaxStemLength then |stem| else MaxStemLength)
    ensures r == stem[..|r| - |ext|] + ext
  {
    if |stem| > MaxStemLength then stem[..MaxStemLength] + ext else stem + ext
  }

  /** Characters drawn from the filtered name are safe characters of the name. */
  lemma FilteredChars(filename: string, r: string)
    requires forall c :: c in r ==> c in Filter(filename, IsSafe)
    ensures forall c :: c in r ==> IsSafe(c) && c in filename
  {
    forall c | c in r ensures IsSafe(c) && c in filename {
      assert c in multiset(Filter(filename, IsSafe));
      FilterCounts(filename, IsSafe, c);
    }
  }

  /** Cutting the stem keeps only characters of the stem and the extension. */
  lemma CutStemChars(stem: string, ext: string)
    ensures forall c :: c in CutStem(stem, ext) ==> c in stem + ext
  {
    var r := CutStem(stem, ext);
    forall c | c in r ensures c in stem + ext {
      var i :| 0 <= i < |r| && r[i] == c;
      if i < |r| - |ext| {
        assert r[i] == stem[i] == (stem + ext)[i];
      } else {
        assert r[i] == ext[i - (|r| - |ext|)] == (stem + ext)[|stem| + i - (|r| - |ext|)];
      }
    }
  }

  /** Deletes the unsafe characters, then cuts the stem to 50 characters and keeps the extension. */
  function SanitizeFilename(filename: string): (r: string)
    ensures forall i :: 0 <= i < |r| ==> !IsUnsafe(r[i])
    ensures |r| <= |filename|
    ensures forall i :: 0 <= i < |r| ==> r[i] in filename
  {
    var clean := Filter(filename, IsSafe);
    var parts := SplitExt(clean);
    var r := CutStem(parts.0, parts.1);
    CutStemChars(parts.0, parts.1);
    FilteredChars(filename, r);
    r
  }

  /** The extension is kept unchanged and the stem becomes its first 50 characters; a name whose stem
      already fits is returned as filtered. */
  lemma SanitizeKeepsExtension(filename: string)
    ensures var clean := Filter(filename, IsSafe);
            var r := SanitizeFilename(filename);
            var stem, ext := SplitExt(clean).0, SplitExt(clean).1;
            && |r| >= |ext| && r[|r| - |ext|..] == ext
            && |r| - |ext| == (if |stem| <= MaxStemLength then |stem| else MaxStemLength)
            && r[..|r| - |ext|] == stem[..|r| - |ext|]
            && (|stem| <= MaxStemLength ==> r == clean)
  {
    var clean := Filter(filename, IsSafe);
    var r := SanitizeFilename(filename);
    var stem, ext := SplitExt(clean).0, SplitExt(clean).1;
    assert r == stem[..|r| - |ext|] + ext;
  }

  /** Only the unsafe characters are deleted: every safe character keeps its multiplicity. */
  lemma SanitizeDeletesOnlyUnsafe(filename: string, c: char)
    requires IsSafe(c)
    ensures multiset(Filter(filename, IsSafe))[c] == multiset(filename)[c]
    ensures (forall i :: 0 <= i < |filename| ==> IsSafe(filename[i])) ==> Filter(filename, IsSafe) == filename
  {
    FilterCounts(filename, IsSafe, c);
  }

  // ---------------------------------------------------------------------------------------------
  // Character classes of the validators
  // ---------------------------------------------------------------------------------------------

  predicate IsAsciiLetter(c: char) {
    ('a' <= c <= 'z') || ('A' <= c <= 'Z')
  }

  predicate IsAsciiDigit(c: char) {
    '0' <= c <= '9'
  }

  /** `[a-zA-Z0-9._%+-]` */
  predicate IsLocalChar(c: char) {
    IsAsciiLetter(c) || IsAsciiDigit(c) || c in "._%+-"
  }

  /** `[a-zA-Z0-9.-]` */
  predicate IsDomainChar(c: char) {
    IsAsciiLetter(c) || IsAsciiDigit(c) || c == '.' || c == '-'
  }

  predicate AllOf(s: string, p: char -> bool) {
    forall i :: 0 <= i < |s| ==> p(s[i])
  }

  /** Index of the first occurrence of `c`. */
  function FirstIndexOf(s: string, c: char): (r: Option<nat>)
    ensures r.None? ==> forall i :: 0 <= i < |s| ==> s[i] != c
    ensures r.Some? ==> r.value < |s| && s[r.value] == c && forall i :: 0 <= i < r.value ==> s[i] != c
  {
    if |s| == 0 then None
    else if s[0] == c then Some(0)
    else
      match FirstIndexOf(s[1..], c)
      case None => None
      case Some(i) =>
        assert forall k :: 1 <= k < i + 1 ==> s[k] == s[1..][k - 1];
        Some(i + 1)
  }

  /** A regular expression anchored with `$` (not `\Z`) also matches when the subject carries one extra
      trailing newline. */
  predicate MatchesWithDollar(s: string, body: string -> bool) {
    body(s) || (|s| > 0 && s[|s| - 1] == '\n' && body(s[..|s| - 1]))
  }

  // ---------------------------------------------------------------------------------------------
  // validate_email: ^[a-zA-Z0-9._%+-]+@[a-zA-Z0-9.-]+\.[a-zA-Z]{2,}$
  // ---------------------------------------------------------------------------------------------

  /** `t` is local part `t[..i]`, `@`, domain `t[i+1..j]`, `.`, top-level part `t[j+1..]`. */
  ghost predicate EmailSplitAt(t: string, i: nat, j: nat) {
    && 0 < i && i + 1 < j && j + 2 < |t|
    && t[i] == '@' && t[j] == '.'
    && AllOf(t[..i], IsLocalChar) && AllOf(t[i + 1..j], IsDomainChar) && AllOf(t[j + 1..], IsAsciiLetter)
  }

  /** The language of the pattern between its anchors. */
  ghost predicate InEmailLanguage(t: string) {
    exists i: nat, j: nat :: EmailSplitAt(t, i, j)
  }

  /** Recognizer: split at the only `@`, then at the last dot after it. */
  predicate EmailBody(t: string) {
    match FirstIndexOf(t, '@')
    case None => false
    case Some(i) =>
      var rest := t[i + 1..];
      match LastIndexOf(rest, '.')
      case None => false
      case Some(k) =>
        && 0 < i && 0 < k && k + 2 < |rest|
        && AllOf(t[..i], IsLocalChar) && AllOf(rest[..k], IsDomainChar) && AllOf(rest[k + 1..], IsAsciiLetter)
  }

  lemma EmailBodySound(t: string)
    requires EmailBody(t)
    ensures InEmailLanguage(t)
  {
    var i := FirstIndexOf(t, '@').value;
    var rest := t[i + 1..];
    var k := LastIndexOf(rest, '.').value;
    assert rest[..k] == t[i + 1..i + 1 + k];
    assert rest[k + 1..] == t[i + 1 + k + 1..];
    assert EmailSplitAt(t, i, i + 1 + k);
  }

  lemma EmailBodyComplete(t: string, i: nat, j: nat)
    requires EmailSplitAt(t, i, j)
    ensures EmailBody(t)
  {
    EmailSplitIndices(t, i, j);
    var rest := t[i + 1..];
    var k := j - i - 1;
    assert rest[..k] == t[i + 1..j];
    assert rest[k + 1..] == t[j + 1..];
  }

  /** At a split, the `@` is the first one and the dot the last one after it. */
  lemma EmailSplitIndices(t: string, i: nat, j: nat)
    requires EmailSplitAt(t, i, j)
    ensures FirstIndexOf(t, '@') == Some(i) && LastIndexOf(t[i + 1..], '.') == Some(j - i - 1)
  {
    assert forall m :: 0 <= m < i ==> t[m] != '@' by {
      forall m | 0 <= m < i ensures t[m] != '@' {
        assert t[m] == t[..i][m];
      }
    }
    FirstIndexOfIs(t, '@', i);
    var rest := t[i + 1..];
    var k := j - i - 1;
    assert forall m :: k < m < |rest| ==> rest[m] != '.' by {
      forall m | k < m < |rest| ensures rest[m] != '.' {
        assert rest[m] == t[j + 1..][m - k - 1];
      }
    }
    LastIndexOfIs(rest, '.', k);
  }

  lemma FirstIndexOfIs(s: string, c: char, i: nat)
    requires i < |s| && s[i] == c && forall m :: 0 <= m < i ==> s[m] != c
    ensures FirstIndexOf(s, c) == Some(i)
  {
  }

  lemma LastIndexOfIs(s: string, c: char, k: nat)
    requires k < |s| && s[k] == c && forall m :: k < m < |s| ==> s[m] != c
    ensures LastIndexOf(s, c) == Some(k)
  {
  }

  /** The recognizer accepts exactly the strings of the pattern's language. */
  lemma EmailBodyIff(t: string)
    ensures EmailBody(t) <==> InEmailLanguage(t)
  {
    if EmailBody(t) {
      EmailBodySound(t);
    }
    if InEmailLanguage(t) {
      var i: nat, j: nat :| EmailSplitAt(t, i, j);
      EmailBodyComplete(t, i, j);
    }
  }

  /** An accepted address, with or without one trailing newline, has an `@` and a dot. */
  lemma EmailMarks(email: string)
    ensures EmailBody(email) ==> '@' in email && '.' in email
    ensures MatchesWithDollar(email, EmailBody) ==> '@' in email && '.' in email
  {
    forall t | t == email || (|email| > 0 && t == email[..|email| - 1])
      ensures EmailBody(t) ==> '@' in email && '.' in email
    {
      if EmailBody(t) {
        var i := FirstIndexOf(t, '@').value;
        var rest := t[i + 1..];
        var k := LastIndexOf(rest, '.').value;
        assert t[i + 1 + k] == rest[k];
        assert email[i] == t[i] && email[i + 1 + k] == t[i + 1 + k];
      }
    }
  }

  /** `validate_email` as written: `re.match` with the pattern anchored by `$`. */
  function ValidateEmail(email: string): (ok: bool)
    ensures ValidateEmailStrict(email) ==> ok
    ensures ok ==> '@' in email && '.' in email
  {
    EmailMarks(email);
    MatchesWithDollar(email, EmailBody)
  }

  /** The corrected validator: the pattern must match the whole string. */
  function ValidateEmailStrict(email: string): (ok: bool)
    ensures ok ==> '@' in email && '.' in email
  {
    EmailMarks(email);
    EmailBody(email)
  }

  /** The validator as written accepts a valid address, and also a valid address followed by a newline. */
  lemma ValidateEmailIff(email: string)
    ensures ValidateEmail(email) <==>
              InEmailLanguage(email)
              || (|email| > 0 && email[|email| - 1] == '\n' && InEmailLanguage(email[..|email| - 1]))
  {
    EmailBodyIff(email);
    if |email| > 0 {
      EmailBodyIff(email[..|email| - 1]);
    }
  }

  /** The corrected validator accepts exactly the pattern's language; in particular no string containing a
      newline. */
  lemma ValidateEmailStrictIff(email: string)
    ensures ValidateEmailStrict(email) <==> InEmailLanguage(email)
    ensures ValidateEmailStrict(email) ==> forall i :: 0 <= i < |email| ==> email[i] != '\n'
  {
    EmailBodyIff(email);
    if InEmailLanguage(email) {
      var i: nat, j: nat :| EmailSplitAt(email, i, j);
      forall m | 0 <= m < |email| ensures email[m] != '\n' {
        if m < i {
          assert email[m] == email[..i][m];
        } else if i < m < j {
          assert email[m] == email[i + 1..j][m - i - 1];
        } else if j < m {
          assert email[m] == email[j + 1..][m - j - 1];
        }
      }
    }
  }

  /** The newline case: any valid address followed by a newline (`a@b.co` and a newline, say) passes the
      validator as written but not the corrected one. */
  lemma EmailTrailingNewline(address: string)
    requires InEmailLanguage(address)
    ensures ValidateEmail(address + "\n") && !ValidateEmailStrict(address + "\n")
  {
    var s := address + "\n";
    assert s[..|s| - 1] == address;
    EmailBodyIff(address);
    ValidateEmailStrictIff(s);
    assert s[|s| - 1] == '\n';
  }

  /** `a@b.co` is in the language, so the newline case is not vacuous. */
  lemma EmailExample()
    ensures InEmailLanguage("a@b.co")
  {
    assert EmailSplitAt("a@b.co", 1, 3);
  }

  // ---------------------------------------------------------------------------------------------
  // validate_phone: ^\+?1?\d{9,15}$ after deleting spaces and hyphens
  // ---------------------------------------------------------------------------------------------

  predicate IsKeptInPhone(c: char) {
    c != ' ' && c != '-'
  }

  /** `t` is an optional `+` (`p` = 1), an optional `1` (`q` = 1), then 9 to 15 digits. */
  ghost predicate PhoneSplitAt(t: string, p: nat, q: nat) {
    && p <= 1 && q <= 1 && p + q <= |t|
    && (p == 1 ==> t[0] == '+') && (q == 1 ==> t[p] == '1')
    && 9 <= |t| - p - q <= 15
    && AllOf(t[p + q..], IsAsciiDigit)
  }

  ghost predicate InPhoneLanguage(t: string) {
    exists p: nat, q: nat :: PhoneSplitAt(t, p, q)
  }

  /** Recognizer: after an optional `+`, only digits, 9 to 15 of them, or 16 when the first is the
      optional `1`. */
  predicate PhoneBody(t: string) {
    var u := if |t| > 0 && t[0] == '+' then t[1..] else t;
    AllOf(u, IsAsciiDigit) && (9 <= |u| <= 15 || (|u| == 16 && u[0] == '1'))
  }

  /** The recognizer accepts exactly the strings of the pattern's language. */
  lemma PhoneBodyIff(t: string)
    ensures PhoneBody(t) <==> InPhoneLanguage(t)
  {
    var p := if |t| > 0 && t[0] == '+' then 1 else 0;
    var u := t[p..];
    if PhoneBody(t) {
      if |u| <= 15 {
        assert PhoneSplitAt(t, p, 0);
      } else {
        assert t[p + 1..] == u[1..];
        assert PhoneSplitAt(t, p, 1);
      }
    }
    if InPhoneLanguage(t) {
      var p': nat, q: nat :| PhoneSplitAt(t, p', q);
      if p' == 0 && q == 0 {
        assert t[0] == t[p' + q..][0];
      }
      assert p' == p;
      if q == 1 {
        assert forall m :: 1 <= m < |u| ==> u[m] == t[p + 1..][m - 1];
      } else {
        assert u == t[p + q..];
      }
    }
  }

  /** `validate_phone` as written: delete spaces and hyphens, then `re.match` anchored by `$`. */
  function ValidatePhone(phone: string): (ok: bool)
    ensures ValidatePhoneStrict(phone) ==> ok
    ensures ok ==> 9 <= |Filter(phone, IsKeptInPhone)| <= 18
  {
    MatchesWithDollar(Filter(phone, IsKeptInPhone), PhoneBody)
  }

  /** The corrected validator: the pattern must match the whole cleaned string. */
  function ValidatePhoneStrict(phone: string): (ok: bool)
    ensures ok ==> 9 <= |Filter(phone, IsKeptInPhone)| <= 17
  {
    PhoneBody(Filter(phone, IsKeptInPhone))
  }

  /** The `$`-anchored phone pattern matches the language, with or without one trailing newline. */
  lemma PhoneMatchIff(t: string)
    ensures MatchesWithDollar(t, PhoneBody) <==>
              InPhoneLanguage(t) || (|t| > 0 && t[|t| - 1] == '\n' && InPhoneLanguage(t[..|t| - 1]))
  {
    PhoneBodyIff(t);
    if |t| > 0 {
      PhoneBodyIff(t[..|t| - 1]);
    }
  }

  /** After deleting spaces and hyphens, the validator as written accepts the pattern's language, with or
      without one trailing newline; the corrected one accepts exactly the language. */
  lemma ValidatePhoneIff(phone: string)
    ensures var t := Filter(phone, IsKeptInPhone);
            ValidatePhone(phone) <==>
              InPhoneLanguage(t) || (|t| > 0 && t[|t| - 1] == '\n' && InPhoneLanguage(t[..|t| - 1]))
    ensures ValidatePhoneStrict(phone) <==> InPhoneLanguage(Filter(phone, IsKeptInPhone))
  {
    var t := Filter(phone, IsKeptInPhone);
    PhoneMatchIff(t);
    PhoneBodyIff(t);
  }

  /** The newline case: nine digits followed by a newline pass the validator as written but not the
      corrected one. */
  lemma PhoneTrailingNewline(digits: string)
    requires |digits| == 9 && AllOf(digits, IsAsciiDigit)
    ensures ValidatePhone(digits + "\n") && !ValidatePhoneStrict(digits + "\n")
  {
    var s := digits + "\n";
    assert forall i :: 0 <= i < |s| ==> IsKeptInPhone(s[i]);
    assert Filter(s, IsKeptInPhone) == s;
    assert s[..9] == digits;
    assert PhoneBody(digits);
    assert !PhoneBody(s) by {
      assert !IsAsciiDigit(s[9]);
      assert s[0] == digits[0];
    }
  }

  // ---------------------------------------------------------------------------------------------
  // extract_keywords
  // ---------------------------------------------------------------------------------------------

  /** The Spanish and English stop words. */
  const StopWords: set<string> := {
    "el", "la", "de", "que", "y", "a", "en", "un", "es", "se", "no", "te", "lo", "le", "da", "su", "por",
    "son", "con", "para", "como", "las", "del", "los", "una", "al", "pero",
    "the", "be", "to", "of", "and", "in", "that", "have", "i", "it", "for", "not", "on", "with", "he",
    "as", "you", "do", "at", "this", "but", "his", "by", "from"
  }

  predicate IsKeyword(w: string) {
    |w| > 2 && w !in StopWords
  }

  /** `[\w\s]`: what survives `re.sub(r'[^\w\s]', '', ...)`. */
  predicate IsWordOrSpace(c: char) {
    IsWordChar(c) || IsSpace(c)
  }

  /** The lowercased text without punctuation. */
  function CleanText(text: string): (r: string)
    ensures forall i :: 0 <= i < |r| ==> IsWordOrSpace(r[i]) && !IsUpper(r[i])
  {
    var low := Lower(text);
    var r := Filter(low, IsWordOrSpace);
    forall i | 0 <= i < |r| ensures !IsUpper(r[i]) {
      assert multiset(r)[r[i]] > 0;
      FilterCounts(low, IsWordOrSpace, r[i]);
      assert r[i] in low;
    }
    r
  }

  /** The words that are counted, in text order. */
  function Candidates(text: string): (ws: seq<string>)
    ensures forall i :: 0 <= i < |ws| ==> IsKeyword(ws[i]) && IsWord(ws[i])
    ensures forall w :: w in ws ==> w in Words(CleanText(text))
  {
    var all := Words(CleanText(text));
    var ws := Filter(all, IsKeyword);
    forall w | w in ws ensures w in all && IsWord(w) {
      assert multiset(ws)[w] > 0;
      assert IsKeyword(w);
      FilterCounts(all, IsKeyword, w);
    }
    ws
  }

  /** The distinct elements of `s` in order of first occurrence (the key order of a Python dict filled
      by scanning `s`). */
  function Dedup(s: seq<string>): (r: seq<string>)
    ensures Distinct(r)
    ensures forall x :: x in r <==> x in s
  {
    if |s| == 0 then []
    else
      var init := s[..|s| - 1];
      assert forall x :: x in s <==> x in init || x == s[|s| - 1];
      if s[|s| - 1] in init then Dedup(init) else Dedup(init) + [s[|s| - 1]]
  }

  /** `word_count.items()`: each distinct word with its number of occurrences, in first-occurrence order. */
  function Tally(ws: seq<string>): (r: seq<(string, nat)>)
    ensures |r| == |Dedup(ws)|
    ensures forall k :: 0 <= k < |r| ==> r[k].0 == Dedup(ws)[k] && r[k].1 == multiset(ws)[r[k].0]
  {
    var d := Dedup(ws);
    seq(|d|, k requires 0 <= k < |d| => (d[k], multiset(ws)[d[k]]))
  }

  /** `key=lambda x: x[1], reverse=True`: a stable sort on the negated count. */
  function ByCount(item: (string, nat)): Key {
    Key(-(item.1 as int), 0)
  }

  function Firsts(items: seq<(string, nat)>): (r: seq<string>)
    ensures |r| == |items| && forall k :: 0 <= k < |r| ==> r[k] == items[k].0
  {
    seq(|items|, k requires 0 <= k < |items| => items[k].0)
  }

  /** What `extract_keywords` returns. */
  function Keywords(text: string, maxKeywords: int): (r: seq<string>)
    ensures |r| <= |Dedup(Candidates(text))|
  {
    Firsts(PySliceTo(Ranked(Candidates(text)), maxKeywords))
  }

  /** `sorted(word_count.items(), key=lambda x: x[1], reverse=True)` */
  function Ranked(ws: seq<string>): (s: seq<(string, nat)>)
    ensures |s| == |Dedup(ws)|
  {
    SortBy(Tally(ws), ByCount)
  }

  /** The counting loop: `word_count[word] = word_count.get(word, 0) + 1` for each word in order. */
  method CountWords(words: seq<string>) returns (keys: seq<string>, counts: map<string, nat>)
    ensures keys == Dedup(words)
    ensures forall w :: w in counts <==> w in words
    ensures forall w :: w in counts ==> counts[w] == multiset(words)[w]
  {
    keys := [];
    counts := map[];
    var i := 0;
    while i < |words|
      invariant 0 <= i <= |words|
      invariant keys == Dedup(words[..i])
      invariant forall w :: w in counts <==> w in words[..i]
      invariant forall w :: w in counts ==> counts[w] == multiset(words[..i])[w]
    {
      var w := words[i];
      assert words[..i + 1] == words[..i] + [w];
      assert words[..i + 1][..i] == words[..i];
      if w in counts {
        counts := counts[w := counts[w] + 1];
      } else {
        counts := counts[w := 1];
        keys := keys + [w];
      }
      i := i + 1;
    }
    assert words[..i] == words;
  }

  /** `extract_keywords`: clean, split and filter the text, count the words in a dict, sort the items by
      decreasing count and keep the first `maxKeywords` words. */
  method ExtractKeywords(text: string, maxKeywords: int) returns (keywords: seq<string>)
    ensures keywords == Keywords(text, maxKeywords)
  {
    var words := Candidates(text);
    var keys, counts := CountWords(words);
    var items := seq(|keys|, k requires 0 <= k < |keys| => (keys[k], if keys[k] in counts then counts[keys[k]] else 0));
    assert items == Tally(words);
    var sortedItems := SortBy(items, ByCount);
    keywords := Firsts(PySliceTo(sortedItems, maxKeywords));
  }

  /** Every ranked item is an item of the tally. */
  lemma RankedFromTally(ws: seq<string>)
    ensures forall i :: 0 <= i < |Ranked(ws)| ==> Ranked(ws)[i] in Tally(ws)
    ensures multiset(Ranked(ws)) == multiset(Tally(ws))
  {
    var t := Tally(ws);
    var s := Ranked(ws);
    SortByPermutes(t, ByCount);
    forall i | 0 <= i < |s| ensures s[i] in t {
      assert s[i] in multiset(s);
    }
  }

  /** Each ranked item is a candidate with its true count. */
  lemma RankedCounts(ws: seq<string>)
    ensures forall i :: 0 <= i < |Ranked(ws)| ==>
              Ranked(ws)[i].0 in ws && Ranked(ws)[i].1 == multiset(ws)[Ranked(ws)[i].0]
  {
    RankedFromTally(ws);
  }

  /** No word is ranked twice. */
  lemma RankedDistinct(ws: seq<string>)
    ensures forall i, j :: 0 <= i < j < |Ranked(ws)| ==> Ranked(ws)[i].0 != Ranked(ws)[j].0
  {
    var t := Tally(ws);
    var s := Ranked(ws);
    RankedFromTally(ws);
    assert Distinct(t) by {
      forall i, j | 0 <= i < j < |t| ensures t[i] != t[j] {
        assert t[i].0 == Dedup(ws)[i] && t[j].0 == Dedup(ws)[j];
      }
    }
    PermutationKeepsDistinct(t, s);
    RankedCounts(ws);
    forall i, j | 0 <= i < j < |s| ensures s[i].0 != s[j].0 {
      assert s[i] != s[j];
    }
  }

  /** The ranked items come by non-increasing count. */
  lemma RankedByCount(ws: seq<string>)
    ensures forall i, j :: 0 <= i < j < |Ranked(ws)| ==> Ranked(ws)[i].1 >= Ranked(ws)[j].1
  {
    var s := Ranked(ws);
    SortBySorted(Tally(ws), ByCount);
    forall i, j | 0 <= i < j < |s| ensures s[i].1 >= s[j].1 {
      assert KeyLe(ByCount(s[i]), ByCount(s[j]));
    }
  }

  /** Every candidate is ranked. */
  lemma RankedComplete(ws: seq<string>)
    ensures forall w :: w in ws ==> w in Firsts(Ranked(ws))
  {
    var t := Tally(ws);
    var s := Ranked(ws);
    RankedFromTally(ws);
    forall w | w in ws ensures w in Firsts(s) {
      var k :| 0 <= k < |Dedup(ws)| && Dedup(ws)[k] == w;
      assert t[k] in multiset(t);
      assert t[k] in multiset(s);
      var m :| 0 <= m < |s| && s[m] == t[k];
      assert Firsts(s)[m] == w;
    }
  }

  /** The keywords are distinct, each is a word of the cleaned text longer than two characters and not a
      stop word, and there are at most `maxKeywords` of them; with room for all, every candidate appears. */
  lemma KeywordsAreDistinctCandidates(text: string, maxKeywords: int)
    ensures var r := Keywords(text, maxKeywords);
            && Distinct(r)
            && (forall w :: w in r ==> IsKeyword(w) && w in Words(CleanText(text)))
            && (0 <= maxKeywords ==> |r| <= maxKeywords)
            && (maxKeywords >= |Dedup(Candidates(text))| ==> forall w :: w in Candidates(text) ==> w in r)
  {
    var ws := Candidates(text);
    var s := Ranked(ws);
    RankedCounts(ws);
    RankedDistinct(ws);
    RankedComplete(ws);
    var top := PySliceTo(s, maxKeywords);
    assert forall k :: 0 <= k < |top| ==> top[k] == s[k];
  }

  /** The keywords come in non-increasing order of frequency among the candidates. */
  lemma KeywordsByFrequency(text: string, maxKeywords: int)
    ensures var r := Keywords(text, maxKeywords);
            forall i, j :: 0 <= i < j < |r| ==>
              multiset(Candidates(text))[r[i]] >= multiset(Candidates(text))[r[j]]
  {
    var ws := Candidates(text);
    var s := Ranked(ws);
    RankedCounts(ws);
    RankedByCount(ws);
    var top := PySliceTo(s, maxKeywords);
    assert forall k :: 0 <= k < |top| ==> top[k] == s[k];
  }

  /** `[:max_keywords]` keeps as many keywords as it can: all distinct candidates when they fit, otherwise
      exactly `max_keywords` of them (and, for a negative bound, all but the last `-max_keywords`). */
  lemma {:induction false} KeywordsCount(text: string, maxKeywords: int)
    ensures var n := |Dedup(Candidates(text))|;
            var r := Keywords(text, maxKeywords);
            && (0 <= maxKeywords ==> |r| == if maxKeywords < n then maxKeywords else n)
            && (maxKeywords < 0 ==> |r| == if n + maxKeywords < 0 then 0 else n + maxKeywords)
  {
    var s := Ranked(Candidates(text));
    assert |s| == |Dedup(Candidates(text))|;
    var top := PySliceTo(s, maxKeywords);
    assert |Firsts(top)| == |top|;
  }

  /** The keywords are the top ones: no candidate left out occurs more often than a keyword returned. */
  lemma {:induction false} KeywordsAreTop(text: string, maxKeywords: int)
    ensures var r := Keywords(text, maxKeywords);
            var m := multiset(Candidates(text));
            forall w, k :: w in Candidates(text) && w !in r && k in r ==> m[w] <= m[k]
  {
    var ws := Candidates(text);
    var r := Keywords(text, maxKeywords);
    forall w, k | w in ws && w !in r && k in r ensures multiset(ws)[w] <= multiset(ws)[k] {
      OmittedNotMoreFrequent(ws, maxKeywords, w, k);
    }
  }

  /** A word cut off by the slice of the ranking occurs at most as often as a word kept by it. */
  lemma {:induction false} OmittedNotMoreFrequent(ws: seq<string>, n: int, w: string, k: string)
    requires w in ws && w !in Firsts(PySliceTo(Ranked(ws), n)) && k in Firsts(PySliceTo(Ranked(ws), n))
    ensures multiset(ws)[w] <= multiset(ws)[k]
  {
    var s := Ranked(ws);
    var top := PySliceTo(s, n);
    var r := Firsts(top);
    RankedComplete(ws);
    var a :| 0 <= a < |Firsts(s)| && Firsts(s)[a] == w;
    var b :| 0 <= b < |r| && r[b] == k;
    assert forall x :: 0 <= x < |r| ==> r[x] == s[x].0;
    assert b < a;
    RankedCounts(ws);
    RankedByCount(ws);
    assert s[b].0 == k && s[a].0 == w;
  }

  /** Words with equal frequency keep the order of their first occurrence in the text. */
  lemma KeywordsTiesInFirstOccurrenceOrder(text: string, maxKeywords: int, i: nat, j: nat)
    requires var r := Keywords(text, maxKeywords);
             i < j < |r| && multiset(Candidates(text))[r[i]] == multiset(Candidates(text))[r[j]]
    ensures var r := Keywords(text, maxKeywords);
            exists a, b :: 0 <= a < b < |Dedup(Candidates(text))|
                           && Dedup(Candidates(text))[a] == r[i] && Dedup(Candidates(text))[b] == r[j]
  {
    var ws := Candidates(text);
    var s := Ranked(ws);
    RankedCounts(ws);
    var top := PySliceTo(s, maxKeywords);
    assert top[i] == s[i] && top[j] == s[j];
    RankedTiesInTallyOrder(ws, i, j);
  }

  /** Ranked items of equal count come in the order of their words' first occurrence. */
  lemma RankedTiesInTallyOrder(ws: seq<string>, i: nat, j: nat)
    requires i < j < |Ranked(ws)| && Ranked(ws)[i].1 == Ranked(ws)[j].1
    ensures exists a, b :: 0 <= a < b < |Dedup(ws)| && Dedup(ws)[a] == Ranked(ws)[i].0 && Dedup(ws)[b] == Ranked(ws)[j].0
  {
    var t := Tally(ws);
    var s := Ranked(ws);
    var k := ByCount(s[i]);
    assert ByCount(s[j]) == k;
    WithKeyKeepsOrder(s, ByCount, k, i, j);
    SortByStable(t, ByCount, k);
    var a, b :| 0 <= a < b < |WithKey(s, ByCount, k)|
                && WithKey(s, ByCount, k)[a] == s[i] && WithKey(s, ByCount, k)[b] == s[j];
    WithKeyOrderFromInput(t, ByCount, k, a, b);
    var i', j' :| 0 <= i' < j' < |t| && t[i'] == s[i] && t[j'] == s[j];
    assert Dedup(ws)[i'] == s[i].0 && Dedup(ws)[j'] == s[j].0;
  }
}
