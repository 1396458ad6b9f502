/**
 * Character classes and number texts shared by the string-handling modules.
 * Case conversion is ASCII-only: `toLowerCase` is applied in the sources to
 * player names, hexadecimal ids and cache keys.
 */
module Ascii {

  predicate IsUpper(c: char) { 'A' <= c <= 'Z' }

  predicate IsLowerLetter(c: char) { 'a' <= c <= 'z' }

  predicate IsDigit(c: char) { '0' <= c <= '9' }

  /** `toLowerCase` on one character. */
  function LowerChar(c: char): (r: char)
    ensures !IsUpper(r)
    ensures IsUpper(c) ==> IsLowerLetter(r) && r as int - c as int == 32
    ensures !IsUpper(c) ==> r == c
  {
    if IsUpper(c) then (c as int + 32) as char else c
  }

  /** `toLowerCase` on a string: same length, every character lowered. */
  function Lower(s: string): (r: string)
    ensures |r| == |s|
    ensures forall i :: 0 <= i < |s| ==> r[i] == LowerChar(s[i])
  {
    seq(|s|, i requires 0 <= i < |s| => LowerChar(s[i]))
  }

  /** Two strings are the same up to the case of their letters. */
  predicate SameIgnoringCase(a: string, b: string) {
    Lower(a) == Lower(b)
  }

  /** Lowering is idempotent, so a normalised key normalises to itself. */
  lemma LowerIdempotent(s: string)
    ensures Lower(Lower(s)) == Lower(s)
  {
  }

  function DigitValue(c: char): (d: nat)
    requires IsDigit(c)
    ensures d < 10
  {
    c as int - '0' as int
  }

  function DigitChar(d: nat): (c: char)
    requires d < 10
    ensures IsDigit(c) && DigitValue(c) == d
  {
    ('0' as int + d) as char
  }

  predicate AllDigits(s: string) {
    forall i :: 0 <= i < |s| ==> IsDigit(s[i])
  }

  /** The value of a string of decimal digits, most significant first (0 for the empty string). */
  function DigitsValue(s: string): (n: nat)
    requires AllDigits(s)
  {
    if s == [] then 0 else DigitsValue(s[..|s| - 1]) * 10 + DigitValue(s[|s| - 1])
  }

  /** The shortest decimal text of a natural number, as JavaScript and Java print it. */
  function DecimalText(n: nat): (s: string)
    ensures |s| >= 1 && AllDigits(s)
    ensures |s| > 1 ==> s[0] != '0'
  {
    if n < 10 then [DigitChar(n)] else DecimalText(n / 10) + [DigitChar(n % 10)]
  }

  /** The decimal text of an integer, with a leading '-' when negative. */
  function IntText(i: int): (s: string)
    ensures i >= 0 ==> s == DecimalText(i)
    ensures i < 0 ==> s == "-" + DecimalText(-i)
  {
    if i >= 0 then DecimalText(i) else "-" + DecimalText(-i)
  }

  /** Reading back a printed number gives the number. */
  lemma {:induction false} DecimalTextRoundTrip(n: nat)
    ensures DigitsValue(DecimalText(n)) == n
  {
    var s := DecimalText(n);
    if n >= 10 {
      DecimalTextRoundTrip(n / 10);
      assert s[..|s| - 1] == DecimalText(n / 10);
    }
  }

  /** A decimal text never contains the separator characters used around it. */
  lemma DecimalTextHasNo(n: nat, sep: char)
    requires !IsDigit(sep)
    ensures sep !in DecimalText(n)
  {
  }

  /**
   * JavaScript `s.split(sep)` for a one-character separator: the pieces
   * between separators, in order, empty pieces included (one piece for a text
   * without the separator).
   */
  function Split(s: string, sep: char): (parts: seq<string>)
    ensures |parts| >= 1
    ensures forall i :: 0 <= i < |parts| ==> sep !in parts[i]
  {
    if s == [] then [[]]
    else
      var rest := Split(s[1..], sep);
      if s[0] == sep then [[]] + rest else [[s[0]] + rest[0]] + rest[1..]
  }

  /** A text without the separator splits into itself alone. */
  lemma {:induction false} SplitWithout(a: string, sep: char)
    requires sep !in a
    ensures Split(a, sep) == [a]
  {
    if a != [] {
      SplitWithout(a[1..], sep);
      assert [a[0]] + a[1..] == a;
    }
  }

  /** Splitting a piece, a separator and the rest gives the piece, then the rest's pieces. */
  lemma {:induction false} SplitJoin(a: string, sep: char, b: string)
    requires sep !in a
    ensures Split(a + [sep] + b, sep) == [a] + Split(b, sep)
  {
    var s := a + [sep] + b;
    if a == [] {
      assert s[1..] == b;
    } else {
      assert s[1..] == a[1..] + [sep] + b;
      SplitJoin(a[1..], sep, b);
      assert [a[0]] + a[1..] == a;
    }
  }

  /** JavaScript `parts.join(sep)` for a one-character separator. */
  function Join(parts: seq<string>, sep: char): string {
    if parts == [] then []
    else if |parts| == 1 then parts[0]
    else parts[0] + [sep] + Join(parts[1..], sep)
  }

  /** Splitting joined separator-free pieces gives the pieces back. */
  lemma {:induction false} SplitOfJoin(parts: seq<string>, sep: char)
    requires |parts| >= 1 && forall i :: 0 <= i < |parts| ==> sep !in parts[i]
    ensures Split(Join(parts, sep), sep) == parts
  {
    if |parts| == 1 {
      SplitWithout(parts[0], sep);
    } else {
      SplitOfJoin(parts[1..], sep);
      SplitJoin(parts[0], sep, Join(parts[1..], sep));
      assert [parts[0]] + parts[1..] == parts;
    }
  }
}
