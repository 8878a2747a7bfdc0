/**
  * The Python string operations the tools depend on, with Python's own edge
  * cases: `str.count` and `str.replace` scan left to right for NON-overlapping
  * occurrences (an empty pattern matches at every index), `str.split('\n')`
  * always yields at least one piece, and `str.strip()` removes every character
  * Python classifies as whitespace.
  */
module Text {

  /** Python's `s.startswith(prefix)`. */
  predicate StartsWith(s: string, prefix: string) {
    |prefix| <= |s| && s[..|prefix|] == prefix
  }

  /** Python's `s.endswith(suffix)`. */
  predicate EndsWith(s: string, suffix: string) {
    |suffix| <= |s| && s[|s| - |suffix|..] == suffix
  }

  /** Appending to a string keeps its prefixes and extends its suffixes. */
  lemma Append(s: string, suffix: string, t: string)
    requires EndsWith(s, suffix)
    ensures StartsWith(s + t, s) && EndsWith(s + t, suffix + t)
  {
    var n := |s| - |suffix|;
    assert (s + t)[..|s|] == s;
    assert (s + t)[n..] == s[n..] + t;
  }

  /** `pat` occurs in `s` at index `i`. */
  predicate MatchAt(s: string, pat: string, i: int) {
    0 <= i && i + |pat| <= |s| && s[i..i + |pat|] == pat
  }

  /** Python's `pat in s`: an occurrence at some index, overlapping or not. */
  predicate Contains(s: string, pat: string) {
    exists i | 0 <= i <= |s| :: MatchAt(s, pat, i)
  }

  /** The leftmost occurrence of `pat` at or after index `i`. */
  function FirstMatchFrom(s: string, pat: string, i: nat): (k: nat)
    requires i <= |s|
    requires exists j | i <= j <= |s| :: MatchAt(s, pat, j)
    ensures i <= k && MatchAt(s, pat, k)
    ensures forall j | i <= j < k :: !MatchAt(s, pat, j)
    decreases |s| - i
  {
    if MatchAt(s, pat, i) then i else FirstMatchFrom(s, pat, i + 1)
  }

  /** The index of the leftmost occurrence of `pat` in `s`. */
  function FirstMatch(s: string, pat: string): (k: nat)
    requires Contains(s, pat)
    ensures MatchAt(s, pat, k)
    ensures forall j | 0 <= j < k :: !MatchAt(s, pat, j)
  {
    FirstMatchFrom(s, pat, 0)
  }

  /** The number of non-overlapping occurrences found scanning from index `i`. */
  function CountFrom(s: string, pat: string, i: nat): nat
    requires pat != [] && i <= |s|
    decreases |s| - i
  {
    if i + |pat| > |s| then 0
    else if s[i..i + |pat|] == pat then 1 + CountFrom(s, pat, i + |pat|)
    else CountFrom(s, pat, i + 1)
  }

  /** Python's `s.count(pat)`; an empty pattern is counted `len(s) + 1` times. */
  function Count(s: string, pat: string): nat {
    if pat == [] then |s| + 1 else CountFrom(s, pat, 0)
  }

  /** Python's `s.replace(pat, rep)` for a non-empty pattern, scanning from index `i`. */
  function ReplaceFrom(s: string, pat: string, rep: string, i: nat): string
    requires pat != [] && i <= |s|
    decreases |s| - i
  {
    if i + |pat| > |s| then s[i..]
    else if s[i..i + |pat|] == pat then rep + ReplaceFrom(s, pat, rep, i + |pat|)
    else [s[i]] + ReplaceFrom(s, pat, rep, i + 1)
  }

  /** Python's `s.replace("", rep)`: `rep` before every character and at the end. */
  function ReplaceEmpty(s: string, rep: string): string {
    if s == [] then rep else rep + [s[0]] + ReplaceEmpty(s[1..], rep)
  }

  /** Python's `s.replace(pat, rep)`: every non-overlapping occurrence, left to right. */
  function Replace(s: string, pat: string, rep: string): string {
    if pat == [] then ReplaceEmpty(s, rep) else ReplaceFrom(s, pat, rep, 0)
  }

  lemma {:induction false} CountFromZero(s: string, pat: string, i: nat)
    requires pat != [] && i <= |s|
    ensures CountFrom(s, pat, i) == 0 <==> forall j | i <= j <= |s| :: !MatchAt(s, pat, j)
    decreases |s| - i
  {
    if i + |pat| > |s| {
    } else if s[i..i + |pat|] == pat {
      assert MatchAt(s, pat, i);
    } else {
      CountFromZero(s, pat, i + 1);
      assert !MatchAt(s, pat, i);
    }
  }

  /** `pat not in s` exactly when `s.count(pat) == 0`, for every pattern. */
  lemma CountZeroIffAbsent(s: string, pat: string)
    ensures Count(s, pat) == 0 <==> !Contains(s, pat)
  {
    if pat == [] {
      assert MatchAt(s, pat, 0);
    } else {
      CountFromZero(s, pat, 0);
    }
  }

  lemma {:induction false} ScanCount(s: string, pat: string, i: nat, k: nat)
    requires pat != [] && i <= k && MatchAt(s, pat, k)
    requires forall j | i <= j < k :: !MatchAt(s, pat, j)
    ensures CountFrom(s, pat, i) == 1 + CountFrom(s, pat, k + |pat|)
    decreases k - i
  {
    if i < k {
      assert !MatchAt(s, pat, i);
      ScanCount(s, pat, i + 1, k);
    } else {
      assert s[i..i + |pat|] == pat;
    }
  }

  /** Where `pat` does not match, `replace` copies one character and moves on. */
  lemma ReplaceSkip(s: string, pat: string, rep: string, i: nat)
    requires pat != [] && i + |pat| <= |s| && !MatchAt(s, pat, i)
    ensures ReplaceFrom(s, pat, rep, i) == [s[i]] + ReplaceFrom(s, pat, rep, i + 1)
  {
    assert s[i..i + |pat|] != pat;
  }

  lemma SliceCons(s: string, i: nat, k: nat, tail: string)
    requires i < k <= |s|
    ensures s[i..k] + tail == [s[i]] + (s[i + 1..k] + tail)
  {
    assert s[i..k] == [s[i]] + s[i + 1..k];
  }

  lemma {:induction false} ScanReplace(s: string, pat: string, rep: string, i: nat, k: nat)
    requires pat != [] && i <= k && MatchAt(s, pat, k)
    requires forall j | i <= j < k :: !MatchAt(s, pat, j)
    ensures ReplaceFrom(s, pat, rep, i) == s[i..k] + rep + ReplaceFrom(s, pat, rep, k + |pat|)
    decreases k - i
  {
    if i < k {
      ReplaceSkip(s, pat, rep, i);
      ScanReplace(s, pat, rep, i + 1, k);
      SliceCons(s, i, k, rep + ReplaceFrom(s, pat, rep, k + |pat|));
    } else {
      assert s[i..i + |pat|] == pat;
    }
  }

  lemma {:induction false} NoMoreMatches(s: string, pat: string, rep: string, i: nat)
    requires pat != [] && i <= |s| && CountFrom(s, pat, i) == 0
    ensures ReplaceFrom(s, pat, rep, i) == s[i..]
    decreases |s| - i
  {
    if i + |pat| <= |s| {
      NoMoreMatches(s, pat, rep, i + 1);
      assert s[i..] == [s[i]] + s[i + 1..];
    }
  }

  /**
    * When `s.count(pat) == 1`, `s.replace(pat, rep)` rewrites exactly the
    * leftmost occurrence: prefix + `rep` + suffix.
    */
  lemma ReplaceSingle(s: string, pat: string, rep: string)
    requires Count(s, pat) == 1
    ensures Contains(s, pat)
    ensures Replace(s, pat, rep) == s[..FirstMatch(s, pat)] + rep + s[FirstMatch(s, pat) + |pat|..]
  {
    CountZeroIffAbsent(s, pat);
    var k := FirstMatch(s, pat);
    if pat == [] {
      assert s == [];
    } else {
      ScanCount(s, pat, 0, k);
      ScanReplace(s, pat, rep, 0, k);
      NoMoreMatches(s, pat, rep, k + |pat|);
    }
  }

  /**
    * Because the count is of NON-overlapping occurrences, "aa" is counted once
    * in "aaa" although it occurs at two indices.
    */
  lemma OverlappingOccurrencesCountOnce()
    ensures MatchAt("aaa", "aa", 0) && MatchAt("aaa", "aa", 1)
    ensures Count("aaa", "aa") == 1
  {
    assert CountFrom("aaa", "aa", 2) == 0;
  }

  /** The number of occurrences of the character `c` in `s`. */
  function CountChar(s: string, c: char): nat {
    if s == [] then 0 else (if s[0] == c then 1 else 0) + CountChar(s[1..], c)
  }

  lemma {:induction false} CountCharConcat(a: string, b: string, c: char)
    ensures CountChar(a + b, c) == CountChar(a, c) + CountChar(b, c)
  {
    if a == [] {
      assert a + b == b;
    } else {
      assert (a + b)[1..] == a[1..] + b;
      CountCharConcat(a[1..], b, c);
    }
  }

  /** A character occurs in a string exactly when it is counted at least once. */
  lemma {:induction false} CountCharIn(s: string, c: char)
    ensures c in s <==> CountChar(s, c) > 0
  {
    if s != [] {
      CountCharIn(s[1..], c);
      assert s == [s[0]] + s[1..];
    }
  }

  /** Python's `s.split(sep)` for a one-character separator. */
  function Split(s: string, sep: char): (parts: seq<string>)
    ensures |parts| == CountChar(s, sep) + 1
    ensures StartsWith(s, parts[0])
    ensures forall i | 0 <= i < |parts| :: sep !in parts[i]
  {
    if s == [] then [[]]
    else
      var rest := Split(s[1..], sep);
      if s[0] == sep then [[]] + rest
      else
        assert s[..1 + |rest[0]|] == [s[0]] + s[1..][..|rest[0]|];
        [[s[0]] + rest[0]] + rest[1..]
  }

  /** Python's `sep.join(parts)`. */
  function Join(parts: seq<string>, sep: char): string
    requires |parts| >= 1
  {
    if |parts| == 1 then parts[0] else parts[0] + [sep] + Join(parts[1..], sep)
  }

  /** Joining peels off the last part behind the last separator. */
  lemma {:induction false} JoinLast(parts: seq<string>, sep: char)
    requires |parts| >= 2
    ensures Join(parts, sep) == Join(parts[..|parts| - 1], sep) + [sep] + parts[|parts| - 1]
  {
    if |parts| > 2 {
      JoinLast(parts[1..], sep);
      assert parts[1..][..|parts| - 2] == parts[..|parts| - 1][1..];
    }
  }

  /** Splitting and joining again on the same separator gives back the string. */
  lemma {:induction false} SplitJoin(s: string, sep: char)
    ensures Join(Split(s, sep), sep) == s
  {
    if s != [] {
      var rest := Split(s[1..], sep);
      SplitJoin(s[1..], sep);
      var parts := Split(s, sep);
      if s[0] == sep {
        assert parts[1..] == rest;
      } else if |rest| > 1 {
        assert parts[1..] == rest[1..];
      }
    }
  }

  /**
    * Replacing `oldText` by `newText` inside the same context changes the
    * number of `'\n'`-separated lines by the difference in newline counts.
    */
  lemma LinesChanged(pre: string, oldText: string, newText: string, suf: string)
    ensures |Split(pre + newText + suf, '\n')| - |Split(pre + oldText + suf, '\n')|
            == CountChar(newText, '\n') - CountChar(oldText, '\n')
  {
    CountCharConcat(pre + newText, suf, '\n');
    CountCharConcat(pre, newText, '\n');
    CountCharConcat(pre + oldText, suf, '\n');
    CountCharConcat(pre, oldText, '\n');
  }

  /** Characters Python's `str.isspace()` accepts (and `str.strip()` removes). */
  predicate IsSpace(c: char) {
    c in {' ', '\t', '\n', '\r', '\U{000B}', '\U{000C}', '\U{001C}', '\U{001D}', '\U{001E}',
          '\U{001F}', '\U{0085}', '\U{00A0}', '\U{1680}', '\U{2000}', '\U{2001}', '\U{2002}',
          '\U{2003}', '\U{2004}', '\U{2005}', '\U{2006}', '\U{2007}', '\U{2008}', '\U{2009}',
          '\U{200A}', '\U{2028}', '\U{2029}', '\U{202F}', '\U{205F}', '\U{3000}'}
  }

  /** Python's `s.lstrip()`. */
  function LStrip(s: string): (r: string)
    ensures r == [] || !IsSpace(r[0])
    ensures EndsWith(s, r)
    ensures forall i | 0 <= i < |s| - |r| :: IsSpace(s[i])
  {
    if s != [] && IsSpace(s[0]) then
      var r := LStrip(s[1..]);
      assert forall i | 1 <= i < |s| - |r| :: s[i] == s[1..][i - 1];
      r
    else s
  }

  /** Python's `s.rstrip()`. */
  function RStrip(s: string): (r: string)
    ensures r == [] || !IsSpace(r[|r| - 1])
    ensures StartsWith(s, r)
    ensures forall i | |r| <= i < |s| :: IsSpace(s[i])
  {
    if s != [] && IsSpace(s[|s| - 1]) then RStrip(s[..|s| - 1]) else s
  }

  /** Python's `s.strip()`. */
  function Strip(s: string): (r: string)
    ensures r == [] || (!IsSpace(r[0]) && !IsSpace(r[|r| - 1]))
  {
    RStrip(LStrip(s))
  }

  /** Python's `s.rstrip(c)`: every trailing `c` removed. */
  function RStripChar(s: string, c: char): (r: string)
    ensures StartsWith(s, r)
    ensures r == [] || r[|r| - 1] != c
    ensures forall i | |r| <= i < |s| :: s[i] == c
  {
    if s != [] && s[|s| - 1] == c then RStripChar(s[..|s| - 1], c) else s
  }

  /** Python's `s[:n]`. */
  function Take(s: string, n: nat): (r: string)
    ensures StartsWith(s, r)
    ensures |r| == if |s| <= n then |s| else n
  {
    if |s| <= n then s else s[..n]
  }

  function Digit(d: nat): char
    requires d < 10
  {
    "0123456789"[d]
  }

  /** Python's `str(n)` for a natural number. */
  function Decimal(n: nat): (s: string)
    ensures |s| >= 1
    ensures forall i | 0 <= i < |s| :: '0' <= s[i] <= '9'
    ensures n < 10 <==> |s| == 1
  {
    if n < 10 then [Digit(n)] else Decimal(n / 10) + [Digit(n % 10)]
  }
}
