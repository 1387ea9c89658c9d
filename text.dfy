/** The Python string operations the handlers use: `lower`, `replace`, `split`, `strip`, `in`. */
module Text {
  import opened Errors

  /** `c.lower()` for ASCII letters; other characters are left as they are. */
  function LowerChar(c: char): char {
    if 'A' <= c <= 'Z' then (c as int + 32) as char else c
  }

  function Lower(s: string): (r: string)
    ensures |r| == |s|
    ensures forall i | 0 <= i < |s| :: r[i] == LowerChar(s[i])
  {
    if s == [] then [] else [LowerChar(s[0])] + Lower(s[1..])
  }

  /** `pat` occurs in `s` at position i. */
  predicate OccursAt(s: string, pat: string, i: nat) {
    i + |pat| <= |s| && s[i..i + |pat|] == pat
  }

  /** Python's `pat in s` for strings. */
  predicate Contains(s: string, pat: string) {
    exists i: nat | i <= |s| :: OccursAt(s, pat, i)
  }

  /** `s.replace(pat, rep)`: one left-to-right pass replacing non-overlapping occurrences. */
  function ReplaceAll(s: string, pat: string, rep: string): string
    requires |pat| > 0
    decreases |s|
  {
    if |s| < |pat| then s
    else if s[..|pat|] == pat then rep + ReplaceAll(s[|pat|..], pat, rep)
    else [s[0]] + ReplaceAll(s[1..], pat, rep)
  }

  /** Replacing one character by one character maps the string position by position. */
  lemma {:induction false} ReplaceCharPointwise(s: string, a: char, b: char)
    ensures |ReplaceAll(s, [a], [b])| == |s|
    ensures forall i | 0 <= i < |s| :: ReplaceAll(s, [a], [b])[i] == if s[i] == a then b else s[i]
    decreases |s|
  {
    if |s| > 0 {
      ReplaceCharPointwise(s[1..], a, b);
      var rest := ReplaceAll(s[1..], [a], [b]);
      assert ReplaceAll(s, [a], [b]) == [if s[0] == a then b else s[0]] + rest;
    }
  }

  /** A string in which the pattern does not occur is left unchanged by `replace`. */
  lemma {:induction false} ReplaceAbsent(s: string, pat: string, rep: string)
    requires |pat| > 0
    requires !Contains(s, pat)
    ensures ReplaceAll(s, pat, rep) == s
    decreases |s|
  {
    if |s| >= |pat| {
      assert !OccursAt(s, pat, 0);
      assert s[..|pat|] != pat;
      forall i: nat | i <= |s[1..]| ensures !OccursAt(s[1..], pat, i) {
        assert !OccursAt(s, pat, i + 1);
        if i + |pat| <= |s[1..]| {
          assert s[1..][i..i + |pat|] == s[i + 1..i + 1 + |pat|];
        }
      }
      ReplaceAbsent(s[1..], pat, rep);
    }
  }

  /** The first position at which `pat` occurs in `s`, if any. */
  function FindFirst(s: string, pat: string): (r: Option<nat>)
    requires |pat| > 0
    ensures r.Some? ==> OccursAt(s, pat, r.value)
    ensures r.Some? ==> forall j: nat | j < r.value :: !OccursAt(s, pat, j)
    ensures r.None? ==> !Contains(s, pat)
    decreases |s|
  {
    if |s| < |pat| then None
    else if s[..|pat|] == pat then Some(0)
    else
      match FindFirst(s[1..], pat)
      case None =>
        OccursShifted(s, pat);
        None
      case Some(k) =>
        OccursShifted(s, pat);
        Some(k + 1)
  }

  /** An occurrence past the first character of `s` is an occurrence in `s[1..]`, one place earlier. */
  lemma OccursShifted(s: string, pat: string)
    requires |s| > 0
    ensures forall j: nat | 1 <= j <= |s| :: OccursAt(s, pat, j) <==> OccursAt(s[1..], pat, j - 1)
  {
    forall j: nat | 1 <= j <= |s| ensures OccursAt(s, pat, j) <==> OccursAt(s[1..], pat, j - 1) {
      if j + |pat| <= |s| {
        assert s[1..][j - 1..j - 1 + |pat|] == s[j..j + |pat|];
      }
    }
  }

  /** `s.split(sep)` with a non-empty separator: always at least one piece. */
  function Split(s: string, sep: string): (r: seq<string>)
    requires |sep| > 0
    ensures |r| > 0
    ensures forall i | 0 <= i < |r| :: !Contains(r[i], sep)
    decreases |s|
  {
    match FindFirst(s, sep)
    case None => [s]
    case Some(i) =>
      NoOccurrenceBefore(s, sep, i);
      [s[..i]] + Split(s[i + |sep|..], sep)
  }

  /** The text before the first occurrence of `sep` contains no occurrence of it. */
  lemma NoOccurrenceBefore(s: string, sep: string, i: nat)
    requires |sep| > 0 && i <= |s|
    requires forall j: nat | j < i :: !OccursAt(s, sep, j)
    ensures !Contains(s[..i], sep)
  {
    forall j: nat | j <= i ensures !OccursAt(s[..i], sep, j) {
      if j + |sep| <= i {
        assert !OccursAt(s, sep, j);
        assert s[..i][j..j + |sep|] == s[j..j + |sep|];
      }
    }
  }

  /**
   * `s.split(sep)[0]` is the text up to the first occurrence of `sep`, or all of `s`; it is
   * followed in `s` by that occurrence or by the end.
   */
  lemma SplitHead(s: string, sep: string)
    requires |sep| > 0
    ensures var h := Split(s, sep)[0];
      && |h| <= |s| && h == s[..|h|] && !Contains(h, sep)
      && (|h| == |s| || OccursAt(s, sep, |h|))
  {
  }

  /**
   * `s.split(sep)[1]` exists exactly when `sep` occurs in `s`, and is the head of the split of
   * what follows the first occurrence.
   */
  lemma SplitSecond(s: string, sep: string)
    requires |sep| > 0
    ensures |Split(s, sep)| >= 2 <==> Contains(s, sep)
    ensures |Split(s, sep)| >= 2 ==>
      var i := FindFirst(s, sep).value;
      Split(s, sep)[1] == Split(s[i + |sep|..], sep)[0]
  {
  }

  /** A text without an occurrence of the one-character pattern `[c]` has no `c` in it. */
  lemma AbsentChar(s: string, c: char)
    requires !Contains(s, [c])
    ensures forall i | 0 <= i < |s| :: s[i] != c
  {
    forall i | 0 <= i < |s| ensures s[i] != c {
      assert !OccursAt(s, [c], i);
      assert s[i..i + 1] == [s[i]];
    }
  }

  /** `sep.join(pieces)`. */
  function Join(pieces: seq<string>, sep: string): string
    requires |pieces| > 0
  {
    if |pieces| == 1 then pieces[0] else pieces[0] + sep + Join(pieces[1..], sep)
  }

  /** Joining the pieces of a split with the same separator gives back the string. */
  lemma {:induction false} SplitJoin(s: string, sep: string)
    requires |sep| > 0
    ensures Join(Split(s, sep), sep) == s
    decreases |s|
  {
    match FindFirst(s, sep)
    case None =>
    case Some(i) =>
      SplitJoin(s[i + |sep|..], sep);
      assert s == s[..i] + sep + s[i + |sep|..];
  }

  /** Splitting a string that does not contain the separator gives the string back alone. */
  lemma SplitAbsent(s: string, sep: string)
    requires |sep| > 0 && !Contains(s, sep)
    ensures Split(s, sep) == [s]
  {
  }

  /** How many characters of `chars` begin `s`: what `strip` drops from the left. */
  function LeadingIn(s: string, chars: set<char>): (n: nat)
    ensures n <= |s|
    ensures forall i | 0 <= i < n :: s[i] in chars
    ensures n < |s| ==> s[n] !in chars
    decreases |s|
  {
    if s != [] && s[0] in chars then
      var n := 1 + LeadingIn(s[1..], chars);
      assert forall i | 1 <= i < n :: s[i] == s[1..][i - 1];
      n
    else 0
  }

  /** How many characters of `chars` end `s`: what `strip` drops from the right. */
  function TrailingIn(s: string, chars: set<char>): (n: nat)
    ensures n <= |s|
    ensures forall i | |s| - n <= i < |s| :: s[i] in chars
    ensures n < |s| ==> s[|s| - n - 1] !in chars
    decreases |s|
  {
    if s != [] && s[|s| - 1] in chars then
      var n := 1 + TrailingIn(s[..|s| - 1], chars);
      assert forall i | |s| - n <= i < |s| - 1 :: s[i] == s[..|s| - 1][i];
      n
    else 0
  }

  /** `s.strip(chars)`: drops the characters in `chars` from the left end, then from the right end. */
  function Strip(s: string, chars: set<char>): (r: string)
    ensures exists a: nat, b: nat | a <= b <= |s| ::
      && r == s[a..b]
      && (forall i | 0 <= i < a :: s[i] in chars)
      && (forall i | b <= i < |s| :: s[i] in chars)
    ensures r != [] ==> r[0] !in chars && r[|r| - 1] !in chars
    ensures r == [] <==> forall i | 0 <= i < |s| :: s[i] in chars
  {
    StripBothEnds(s, chars);
    StripSuffixIn(s, chars);
    var a := LeadingIn(s, chars);
    s[a..|s| - TrailingIn(s[a..], chars)]
  }

  /** Stripping keeps a character out of a string that does not have it. */
  lemma StripKeeps(s: string, chars: set<char>, c: char)
    requires forall k | 0 <= k < |s| :: s[k] != c
    ensures forall k | 0 <= k < |Strip(s, chars)| :: Strip(s, chars)[k] != c
  {
    var a := LeadingIn(s, chars);
    var r := s[a..|s| - TrailingIn(s[a..], chars)];
    assert Strip(s, chars) == r;
    forall k | 0 <= k < |r| ensures r[k] != c {
      assert r[k] == s[a + k];
    }
  }

  /** What `strip` drops from the right end is all in `chars`. */
  lemma StripSuffixIn(s: string, chars: set<char>)
    ensures var a := LeadingIn(s, chars); var b := TrailingIn(s[a..], chars);
      forall i | |s| - b <= i < |s| :: s[i] in chars
  {
    var a := LeadingIn(s, chars);
    var rest := s[a..];
    assert forall i | a <= i < |s| :: s[i] == rest[i - a];
  }

  /**
   * Stripping the left end and then the right end cuts one part out of s: it ends where the
   * stripped right end begins, is empty exactly when s holds only stripped characters, and
   * otherwise begins and ends with a kept character.
   */
  lemma StripBothEnds(s: string, chars: set<char>)
    ensures var a := LeadingIn(s, chars); var b := TrailingIn(s[a..], chars);
      && a <= |s| - b
      && (a == |s| - b <==> forall i | 0 <= i < |s| :: s[i] in chars)
      && (a < |s| - b ==> s[a] !in chars && s[|s| - b - 1] !in chars)
  {
    var a := LeadingIn(s, chars);
    var rest := s[a..];
    var b := TrailingIn(rest, chars);
    if a < |s| {
      // the rest begins with a kept character, so TrailingIn stops before reaching it
      assert rest[0] == s[a];
      assert rest[|rest| - b - 1] == s[|s| - b - 1];
    }
  }
}
