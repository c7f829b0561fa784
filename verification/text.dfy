/** The parts of Rust's string library that the prompt assembly relies on:
    `str::contains`, the first item of `str::lines`, and the decimal
    rendering of an unsigned integer by `format!`. */
module Text {
  import opened Wrappers

  // ---------------------------------------------------------------------
  // Substring search (`str::contains` with a string pattern)
  // ---------------------------------------------------------------------

  /** `pat` occurs in `s` starting at index `i`. */
  predicate MatchesAt(s: string, pat: string, i: nat) {
    i + |pat| <= |s| && s[i..i + |pat|] == pat
  }

  /** Reference definition: `pat` occurs somewhere in `s`. */
  ghost predicate Occurs(pat: string, s: string) {
    exists i: nat :: MatchesAt(s, pat, i)
  }

  /** Dropping the first character of `s` shifts every occurrence left by one,
      and loses only an occurrence at index 0. */
  lemma OccursShift(s: string, pat: string)
    requires |s| > 0 && !MatchesAt(s, pat, 0)
    ensures Occurs(pat, s) <==> Occurs(pat, s[1..])
  {
    if Occurs(pat, s) {
      var i: nat :| MatchesAt(s, pat, i);
      assert i > 0;
      assert s[1..][i - 1..i - 1 + |pat|] == s[i..i + |pat|];
      assert MatchesAt(s[1..], pat, i - 1);
    }
    if Occurs(pat, s[1..]) {
      var j: nat :| MatchesAt(s[1..], pat, j);
      assert s[j + 1..j + 1 + |pat|] == s[1..][j..j + |pat|];
      assert MatchesAt(s, pat, j + 1);
    }
  }

  /** An occurrence in a prefix is an occurrence in the whole string. */
  lemma OccursInExtension(p: string, s: string, pat: string)
    requires p <= s && Occurs(pat, p)
    ensures Occurs(pat, s)
  {
    var i: nat :| MatchesAt(p, pat, i);
    assert s[i..i + |pat|] == p[i..i + |pat|];
    assert MatchesAt(s, pat, i);
  }

  /** A non-empty pattern whose last character differs from the last
      character of `s` occurs in `s` exactly when it occurs in `s` without
      that last character. */
  lemma OccursDropLast(s: string, pat: string)
    requires |s| > 0 && |pat| > 0 && s[|s| - 1] != pat[|pat| - 1]
    ensures Occurs(pat, s[..|s| - 1]) <==> Occurs(pat, s)
  {
    var p := s[..|s| - 1];
    if Occurs(pat, s) {
      var i: nat :| MatchesAt(s, pat, i);
      assert s[i..i + |pat|][|pat| - 1] == s[i + |pat| - 1];
      assert p[i..i + |pat|] == s[i..i + |pat|];
      assert MatchesAt(p, pat, i);
    }
    if Occurs(pat, p) {
      OccursInExtension(p, s, pat);
    }
  }

  /** Whether `s` contains `pat`, scanning from the left. */
  function Contains(s: string, pat: string): (b: bool)
    ensures b <==> Occurs(pat, s)
    decreases |s|
  {
    if |s| < |pat| then
      assert forall i: nat :: !MatchesAt(s, pat, i);
      false
    else if s[..|pat|] == pat then
      assert MatchesAt(s, pat, 0);
      true
    else
      OccursShift(s, pat);
      Contains(s[1..], pat)
  }

  // ---------------------------------------------------------------------
  // The first line of a string (`s.lines().next()`)
  // ---------------------------------------------------------------------

  /** Index of the first line feed in `s`, or `|s|` when there is none. */
  function LineEnd(s: string): (k: nat)
    ensures k <= |s|
    ensures '\n' !in s[..k]
    ensures k < |s| ==> s[k] == '\n'
  {
    if s == [] || s[0] == '\n' then 0
    else
      var k := 1 + LineEnd(s[1..]);
      assert s[..k] == [s[0]] + s[1..][..k - 1];
      k
  }

  /** The position of the first line feed is determined by the three facts
      `LineEnd` promises. */
  lemma LineEndUnique(s: string, k: nat)
    requires k <= |s| && '\n' !in s[..k] && (k < |s| ==> s[k] == '\n')
    ensures LineEnd(s) == k
  {
    var e := LineEnd(s);
    forall j | 0 <= j < k ensures s[j] != '\n' {
      assert s[..k][j] == s[j];
    }
    forall j | 0 <= j < e ensures s[j] != '\n' {
      assert s[..e][j] == s[j];
    }
  }

  /** The first item that Rust's `lines()` yields: `None` for the empty
      string; otherwise the text up to the first line feed (or the whole
      string), where a carriage return directly before that line feed is
      part of the line ending and not of the line. */
  function FirstLine(s: string): (line: Option<string>)
    ensures line.Some? <==> s != []
    ensures line.Some? ==> line.value <= s && '\n' !in line.value
    ensures line.Some? ==>
      var n := |line.value|;
      n == |s| || s[n] == '\n' || (n + 1 < |s| && s[n] == '\r' && s[n + 1] == '\n')
    ensures line.Some? && |line.value| < |s| && s[|line.value|] == '\n' ==>
      line.value == [] || line.value[|line.value| - 1] != '\r'
  {
    if s == [] then None
    else
      var k := LineEnd(s);
      if 0 < k < |s| && s[k - 1] == '\r' then
        assert s[..k - 1] == s[..k][..k - 1];
        Some(s[..k - 1])
      else Some(s[..k])
  }

  /** A line joined to the rest of a message by a line feed is read back
      as the first line. */
  lemma {:induction false} FirstLineOfJoined(line: string, rest: string)
    requires '\n' !in line
    requires line == [] || line[|line| - 1] != '\r'
    ensures FirstLine(line + "\n" + rest) == Some(line)
  {
    var s := line + "\n" + rest;
    assert s[..|line|] == line;
    assert s[|line|] == '\n';
    LineEndUnique(s, |line|);
  }

  /** A line ending in a carriage return, joined to the rest by a line feed,
      is read back without that carriage return: `\r\n` is one line ending. */
  lemma FirstLineOfCrlfJoined(line: string, rest: string)
    requires '\n' !in line
    requires line != [] && line[|line| - 1] == '\r'
    ensures FirstLine(line + "\n" + rest) == Some(line[..|line| - 1])
  {
    var s := line + "\n" + rest;
    assert s[..|line|] == line;
    assert s[|line|] == '\n';
    LineEndUnique(s, |line|);
    assert s[..|line| - 1] == line[..|line| - 1];
  }

  // ---------------------------------------------------------------------
  // Decimal rendering of an unsigned integer (`format!("{}", n)`)
  // ---------------------------------------------------------------------

  predicate IsDigit(c: char) {
    '0' <= c <= '9'
  }

  function DigitChar(d: nat): (c: char)
    requires d < 10
    ensures IsDigit(c)
  {
    (48 + d) as char
  }

  function DigitValue(c: char): (d: nat)
    requires IsDigit(c)
    ensures d < 10
  {
    (c as int) - 48
  }

  /** The shortest decimal numeral of `n`: digits only, and no leading zero
      unless `n` is zero. */
  function Decimal(n: nat): (s: string)
    ensures |s| >= 1
    ensures forall i :: 0 <= i < |s| ==> IsDigit(s[i])
    ensures s[0] == '0' ==> n == 0 && s == "0"
  {
    if n < 10 then [DigitChar(n)]
    else Decimal(n / 10) + [DigitChar(n % 10)]
  }

  /** Reads a numeral back, most significant digit first. */
  function ParseDecimal(s: string): (n: nat)
    requires forall i :: 0 <= i < |s| ==> IsDigit(s[i])
  {
    if s == [] then 0
    else 10 * ParseDecimal(s[..|s| - 1]) + DigitValue(s[|s| - 1])
  }

  /** The numeral of `n` reads back as `n`, so distinct numbers render as
      distinct numerals. */
  lemma {:induction false} DecimalRoundTrip(n: nat)
    ensures ParseDecimal(Decimal(n)) == n
  {
    var s := Decimal(n);
    if n >= 10 {
      DecimalRoundTrip(n / 10);
      assert s[..|s| - 1] == Decimal(n / 10);
    }
  }
}
