/**
 * Character classes used by the version grammars, the leading-digit scan
 * the parsers are built from, and the `replace_all` string helper.
 */
module Text {

  /** `\d` */
  predicate IsDigit(c: char) { '0' <= c <= '9' }

  /** `[a-zA-Z]` */
  predicate IsLetter(c: char) { 'a' <= c <= 'z' || 'A' <= c <= 'Z' }

  /** The characters ECMAScript's `.` does not match in a narrow-character string. */
  predicate IsLineBreak(c: char) { c == '\n' || c == '\r' }

  predicate AllDigits(s: string) { forall i :: 0 <= i < |s| ==> IsDigit(s[i]) }

  predicate AllLetters(s: string) { forall i :: 0 <= i < |s| ==> IsLetter(s[i]) }

  predicate NoLineBreak(s: string) { forall i :: 0 <= i < |s| ==> !IsLineBreak(s[i]) }

  /** A non-empty run of digits, `\d+`. */
  predicate IsNumber(s: string) { |s| > 0 && AllDigits(s) }

  /** The length of the longest run of digits `s` starts with (greedy `\d*`). */
  function DigitPrefix(s: string): (n: nat)
    ensures n <= |s|
    ensures AllDigits(s[..n])
    ensures n < |s| ==> !IsDigit(s[n])
  {
    if |s| == 0 || !IsDigit(s[0]) then 0
    else
      var m := DigitPrefix(s[1..]);
      assert s[..m + 1] == [s[0]] + s[1..][..m];
      m + 1
  }

  /** The digit scan stops exactly where a digit run ends. */
  lemma {:induction false} DigitPrefixOfSplit(a: string, b: string)
    requires AllDigits(a)
    requires b == [] || !IsDigit(b[0])
    ensures DigitPrefix(a + b) == |a|
  {
    if a == [] {
      assert a + b == b;
    } else {
      assert (a + b)[1..] == a[1..] + b;
      DigitPrefixOfSplit(a[1..], b);
    }
  }

  /**
   * `replace_all(s, from, to)` for a one-character `from`: every occurrence
   * of `from` replaced by `to`, everything else kept in order.
   */
  function ReplaceAll(s: string, from: char, to: string): (r: string)
    ensures from !in to ==> from !in r
    ensures from !in s ==> r == s
    ensures |to| == 1 ==> |r| == |s|
  {
    if s == [] then []
    else (if s[0] == from then to else [s[0]]) + ReplaceAll(s[1..], from, to)
  }

  /** Proof helper: concatenation is associative, for use as a hint in `calc` steps and asserts. */
  lemma AppendAssoc(a: string, b: string, c: string)
    ensures a + (b + c) == (a + b) + c
  {
  }

  /** Replacing distributes over concatenation. */
  lemma {:induction false} ReplaceAllAppend(a: string, b: string, from: char, to: string)
    ensures ReplaceAll(a + b, from, to) == ReplaceAll(a, from, to) + ReplaceAll(b, from, to)
  {
    if a == [] {
      assert a + b == b;
    } else {
      assert (a + b)[0] == a[0];
      assert (a + b)[1..] == a[1..] + b;
      ReplaceAllAppend(a[1..], b, from, to);
    }
  }

  /** A single character is replaced or kept. */
  lemma ReplaceAllOne(c: char, from: char, to: string)
    ensures ReplaceAll([c], from, to) == if c == from then to else [c]
  {
    assert [c][1..] == [];
  }

  /** Replacing a one-character string by one character keeps every other character in place. */
  lemma {:induction false} ReplaceAllAt(s: string, from: char, to: char, i: nat)
    requires i < |s|
    ensures |ReplaceAll(s, from, [to])| == |s|
    ensures ReplaceAll(s, from, [to])[i] == if s[i] == from then to else s[i]
  {
    if i > 0 {
      ReplaceAllAt(s[1..], from, to, i - 1);
    }
  }
}
