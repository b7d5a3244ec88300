/**
 * The parts of Go's `strings` and `fmt` packages that the core relies on:
 * `strings.TrimSpace`, `strings.Split` with a one-character separator,
 * `strings.HasPrefix`, and the decimal rendering of `%d`.
 */
module Strings {

  /**
   * Go's unicode.IsSpace: tab, line feed, vertical tab, form feed, carriage
   * return, space, U+0085, U+00A0, and the other White_Space code points of
   * Unicode.
   */
  predicate IsSpace(c: char) {
    c == ' ' || c == '\t' || c == '\n' || c == '\r' || c == '\U{000B}' || c == '\U{000C}'
    || c == '\U{0085}' || c == '\U{00A0}' || c == '\U{1680}'
    || ('\U{2000}' <= c <= '\U{200A}')
    || c == '\U{2028}' || c == '\U{2029}' || c == '\U{202F}' || c == '\U{205F}' || c == '\U{3000}'
  }

  /** The first position at or after `i` that does not hold white space (|s| if none). */
  function SkipSpaces(s: string, i: nat): (start: nat)
    requires i <= |s|
    ensures i <= start <= |s|
    decreases |s| - i
  {
    if i < |s| && IsSpace(s[i]) then SkipSpaces(s, i + 1) else i
  }

  /** Everything SkipSpaces passes over is white space, and it stops at a non-space or the end. */
  lemma {:induction false} SkipSpacesStops(s: string, i: nat)
    requires i <= |s|
    ensures var start := SkipSpaces(s, i);
      && (forall k :: i <= k < start ==> IsSpace(s[k]))
      && (start == |s| || !IsSpace(s[start]))
    decreases |s| - i
  {
    if i < |s| && IsSpace(s[i]) {
      SkipSpacesStops(s, i + 1);
    }
  }

  /** The position after the last non-space before `j` and at or after `lo` (`lo` if none). */
  function BackSpaces(s: string, lo: nat, j: nat): (stop: nat)
    requires lo <= j <= |s|
    ensures lo <= stop <= j
    decreases j
  {
    if lo < j && IsSpace(s[j - 1]) then BackSpaces(s, lo, j - 1) else j
  }

  /** Everything BackSpaces passes over is white space, and it stops after a non-space or at `lo`. */
  lemma {:induction false} BackSpacesStops(s: string, lo: nat, j: nat)
    requires lo <= j <= |s|
    ensures var stop := BackSpaces(s, lo, j);
      && (forall k :: stop <= k < j ==> IsSpace(s[k]))
      && (stop == lo || !IsSpace(s[stop - 1]))
    decreases j
  {
    if lo < j && IsSpace(s[j - 1]) {
      BackSpacesStops(s, lo, j - 1);
    }
  }

  /**
   * strings.TrimSpace: the slice of `s` from its first to its last
   * non-space character.
   */
  function TrimSpace(s: string): (r: string)
    ensures |r| <= |s|
  {
    var start := SkipSpaces(s, 0);
    s[start..BackSpaces(s, start, |s|)]
  }

  /**
   * TrimSpace keeps an infix of `s` that neither starts nor ends with white
   * space, and everything before and after that infix is white space.
   */
  lemma TrimSpaceInfix(s: string)
    ensures var start := SkipSpaces(s, 0);
      var stop := BackSpaces(s, start, |s|);
      && TrimSpace(s) == s[start..stop]
      && (forall k :: 0 <= k < start ==> IsSpace(s[k]))
      && (forall k :: stop <= k < |s| ==> IsSpace(s[k]))
      && (start == stop || (!IsSpace(s[start]) && !IsSpace(s[stop - 1])))
  {
    var start := SkipSpaces(s, 0);
    SkipSpacesStops(s, 0);
    BackSpacesStops(s, start, |s|);
  }

  /** TrimSpace's result neither starts nor ends with white space. */
  lemma TrimSpaceEnds(s: string)
    ensures var r := TrimSpace(s); r == [] || (!IsSpace(r[0]) && !IsSpace(r[|r| - 1]))
  {
    TrimSpaceInfix(s);
  }

  /** TrimSpace gives the empty string exactly when `s` is all white space. */
  lemma TrimSpaceEmpty(s: string)
    ensures TrimSpace(s) == [] <==> forall k :: 0 <= k < |s| ==> IsSpace(s[k])
  {
    TrimSpaceInfix(s);
  }

  /** A string that neither starts nor ends with white space is its own TrimSpace. */
  lemma TrimSpaceOfTrimmed(s: string)
    requires s == [] || (!IsSpace(s[0]) && !IsSpace(s[|s| - 1]))
    ensures TrimSpace(s) == s
  {
    if s != [] {
      assert SkipSpaces(s, 0) == 0;
      assert BackSpaces(s, 0, |s|) == |s|;
    }
  }

  /** Trimming twice is trimming once. */
  lemma TrimSpaceIdempotent(s: string)
    ensures TrimSpace(TrimSpace(s)) == TrimSpace(s)
  {
    TrimSpaceEnds(s);
    TrimSpaceOfTrimmed(TrimSpace(s));
  }

  /** strings.HasPrefix. */
  predicate HasPrefix(s: string, prefix: string) {
    |prefix| <= |s| && s[..|prefix|] == prefix
  }

  /** The separator-joined concatenation of `parts`; the inverse of Split. */
  function Join(parts: seq<string>, sep: char): string {
    if parts == [] then ""
    else if |parts| == 1 then parts[0]
    else parts[0] + [sep] + Join(parts[1..], sep)
  }

  /**
   * strings.Split(s, string(sep)): the maximal pieces between separators,
   * including empty ones; "" gives [""].
   */
  function Split(s: string, sep: char): (parts: seq<string>)
    ensures |parts| >= 1
    ensures forall k :: 0 <= k < |parts| ==> sep !in parts[k]
  {
    if s == [] then [""]
    else
      var rest := Split(s[1..], sep);
      if s[0] == sep then [""] + rest
      else [[s[0]] + rest[0]] + rest[1..]
  }

  /** Joining the pieces of a split gives back the original string. */
  lemma {:induction false} JoinSplit(s: string, sep: char)
    ensures Join(Split(s, sep), sep) == s
  {
    if s != [] {
      var rest := Split(s[1..], sep);
      JoinSplit(s[1..], sep);
      if s[0] == sep {
        assert Split(s, sep) == [""] + rest;
      } else {
        var parts := Split(s, sep);
        assert parts == [[s[0]] + rest[0]] + rest[1..];
        if |rest| == 1 {
          assert Join(parts, sep) == [s[0]] + rest[0];
        } else {
          assert Join(rest, sep) == rest[0] + [sep] + Join(rest[1..], sep);
          assert parts[1..] == rest[1..];
        }
      }
    }
  }

  /** Splitting a join of separator-free pieces gives back the pieces. */
  lemma {:induction false} SplitJoin(parts: seq<string>, sep: char)
    requires |parts| >= 1
    requires forall k :: 0 <= k < |parts| ==> sep !in parts[k]
    ensures Split(Join(parts, sep), sep) == parts
  {
    if |parts| == 1 {
      SplitNoSeparator(parts[0], sep);
    } else {
      SplitJoin(parts[1..], sep);
      SplitAfterPiece(parts[0], Join(parts[1..], sep), sep);
    }
  }

  lemma {:induction false} SplitNoSeparator(s: string, sep: char)
    requires sep !in s
    ensures Split(s, sep) == [s]
  {
    if s != [] {
      SplitNoSeparator(s[1..], sep);
      assert [s[0]] + s[1..] == s;
    }
  }

  lemma {:induction false} SplitAfterPiece(p: string, t: string, sep: char)
    requires sep !in p
    ensures Split(p + [sep] + t, sep) == [p] + Split(t, sep)
  {
    if p == [] {
      assert (p + [sep] + t)[1..] == t;
    } else {
      var s := p + [sep] + t;
      assert s[1..] == p[1..] + [sep] + t;
      SplitAfterPiece(p[1..], t, sep);
      assert [s[0]] + p[1..] == p;
    }
  }

  /** The ASCII digit for 0 <= d < 10. */
  function Digit(d: nat): (c: char)
    requires d < 10
    ensures IsDigit(c) && DigitValue(c) == d
  {
    (48 + d) as char
  }

  predicate IsDigit(c: char) {
    48 <= c as int <= 57
  }

  function DigitValue(c: char): nat
    requires IsDigit(c)
  {
    c as int - 48
  }

  /** The `%d` rendering of a non-negative integer. */
  function Decimal(n: nat): (s: string)
    ensures |s| >= 1
    ensures forall i :: 0 <= i < |s| ==> IsDigit(s[i])
  {
    if n < 10 then [Digit(n)] else Decimal(n / 10) + [Digit(n % 10)]
  }

  /** The value of a string of decimal digits. */
  function DecimalValue(s: string): nat
    requires forall i :: 0 <= i < |s| ==> IsDigit(s[i])
  {
    if s == [] then 0
    else DecimalValue(s[..|s| - 1]) * 10 + DigitValue(s[|s| - 1])
  }

  /** Reading back a rendered number gives the number. */
  lemma {:induction false} DecimalRoundTrip(n: nat)
    ensures DecimalValue(Decimal(n)) == n
  {
    if n >= 10 {
      DecimalRoundTrip(n / 10);
      var s := Decimal(n);
      assert s[..|s| - 1] == Decimal(n / 10);
    }
  }

  /** Distinct numbers render differently. */
  lemma DecimalInjective(a: nat, b: nat)
    requires Decimal(a) == Decimal(b)
    ensures a == b
  {
    DecimalRoundTrip(a);
    DecimalRoundTrip(b);
  }
}
