/**
 * The few facts about Python `str` the bots depend on: the `<`/`>` order on
 * strings (lexicographic by code point), `str.isnumeric()` with `int()` on
 * decimal digits, the leading number of a label such as "128kbps", and the
 * `in` substring test.
 */
module PyStr {

  /** Python's `a < b` on two `str` values. */
  predicate StrLess(a: string, b: string)
    decreases |a|
  {
    if |a| == 0 then |b| > 0
    else if |b| == 0 then false
    else if a[0] == b[0] then StrLess(a[1..], b[1..])
    else a[0] < b[0]
  }

  lemma {:induction false} StrLessIrreflexive(a: string)
    ensures !StrLess(a, a)
    decreases |a|
  {
    if |a| > 0 {
      StrLessIrreflexive(a[1..]);
    }
  }

  lemma {:induction false} StrLessAsymmetric(a: string, b: string)
    requires StrLess(a, b)
    ensures !StrLess(b, a)
    decreases |a|
  {
    if |a| > 0 && |b| > 0 && a[0] == b[0] {
      StrLessAsymmetric(a[1..], b[1..]);
    }
  }

  lemma {:induction false} StrLessTransitive(a: string, b: string, c: string)
    requires StrLess(a, b) && StrLess(b, c)
    ensures StrLess(a, c)
    decreases |a|
  {
    if |a| > 0 && a[0] == b[0] && b[0] == c[0] {
      StrLessTransitive(a[1..], b[1..], c[1..]);
    }
  }

  /** Any two different strings are ordered one way or the other. */
  lemma {:induction false} StrLessTotal(a: string, b: string)
    ensures a == b || StrLess(a, b) || StrLess(b, a)
    decreases |a|
  {
    if |a| > 0 && |b| > 0 && a[0] == b[0] {
      StrLessTotal(a[1..], b[1..]);
      if a[1..] == b[1..] {
        assert a == [a[0]] + a[1..] && b == [b[0]] + b[1..];
      }
    }
  }

  predicate IsDigit(c: char) { '0' <= c <= '9' }

  function DigitValue(c: char): (d: nat)
    requires IsDigit(c)
    ensures d <= 9
  {
    c as int - '0' as int
  }

  /** `s.isnumeric()` on a string of ASCII characters. */
  predicate IsNumeric(s: string)
  {
    |s| > 0 && forall i :: 0 <= i < |s| ==> IsDigit(s[i])
  }

  /** `int(s)` for a string of decimal digits. */
  function DecimalValue(s: string): (v: nat)
    requires forall i :: 0 <= i < |s| ==> IsDigit(s[i])
    decreases |s|
  {
    if |s| == 0 then 0
    else 10 * DecimalValue(s[..|s| - 1]) + DigitValue(s[|s| - 1])
  }

  /**
   * `repr` of a one-character string: in single quotes, except that a single
   * quote is put in double quotes and a backslash is doubled.
   */
  function CharRepr(c: char): string
  {
    if c == '\'' then "\"'\""
    else if c == '\\' then "'\\\\'"
    else "'" + [c] + "'"
  }

  /** The items of a tuple's text, separated by ", ". */
  function ReprItems(word: string): string
    decreases |word|
  {
    if word == [] then ""
    else if |word| == 1 then CharRepr(word[0])
    else CharRepr(word[0]) + ", " + ReprItems(word[1..])
  }

  /**
   * `str(tuple(word))`: the text of the tuple of the word's characters, such
   * as "('4',)" for "4" and "('4', '2')" for "42". It is never numeric.
   */
  function TupleText(word: string): (t: string)
    ensures |t| >= 2 && t[0] == '(' && t[|t| - 1] == ')'
    ensures !IsNumeric(t)
  {
    "(" + ReprItems(word) + (if |word| == 1 then "," else "") + ")"
  }

  /** The text of a one-digit word after the conversion, as a concrete case. */
  lemma TupleTextOfDigit(d: char)
    requires IsDigit(d)
    ensures TupleText([d]) == "('" + [d] + "',)"
  {
  }

  /** The longest prefix of `s` made of decimal digits. */
  function DigitPrefix(s: string): (p: string)
    ensures |p| <= |s| && p == s[..|p|]
    ensures forall i :: 0 <= i < |p| ==> IsDigit(p[i])
    ensures |p| < |s| ==> !IsDigit(s[|p|])
    decreases |s|
  {
    if |s| > 0 && IsDigit(s[0]) then [s[0]] + DigitPrefix(s[1..]) else ""
  }

  /** The number a label starts with: 128 for "128kbps", 720 for "720p", 0 when there is none. */
  function LeadingNumber(s: string): nat
  {
    DecimalValue(DigitPrefix(s))
  }

  /** `sub` occurs in `s` starting at position `i`. */
  predicate OccursAt(s: string, sub: string, i: int)
  {
    0 <= i && i + |sub| <= |s| && s[i..i + |sub|] == sub
  }

  /** Python's `sub in s` for two strings. */
  predicate Contains(s: string, sub: string)
  {
    exists i | 0 <= i <= |s| :: OccursAt(s, sub, i)
  }

  /** `s.startswith(p)`. */
  predicate StartsWith(s: string, p: string)
  {
    |p| <= |s| && s[..|p|] == p
  }
}
