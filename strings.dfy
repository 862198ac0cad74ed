/**
 * The few JavaScript string operations the modelled code relies on:
 * truthiness, `startsWith`, `split` on a one-character separator, `join`,
 * decimal `parseInt` and the ASCII case folding of case-insensitive matching.
 */
module Strings {
  import opened Wrappers

  /** An optional string is truthy when it is present and not "". */
  predicate Truthy(value: Option<string>) {
    value.Some? && value.value != ""
  }

  /** `s.startsWith(prefix)` */
  predicate StartsWith(s: string, prefix: string) {
    |prefix| <= |s| && s[..|prefix|] == prefix
  }

  /** `s.includes(part)`: `part` occurs somewhere in `s`. */
  predicate Contains(s: string, part: string)
    decreases |s|
  {
    StartsWith(s, part) || (s != [] && Contains(s[1..], part))
  }

  /**
   * `s.split(c)` for a single-character separator: the pieces between
   * separators, never empty as a list (splitting "" gives [""]), and no
   * piece contains the separator.
   */
  function Split(s: string, c: char): (r: seq<string>)
    ensures |r| >= 1
    ensures forall i :: 0 <= i < |r| ==> c !in r[i]
    decreases |s|
  {
    if s == [] then [""]
    else
      var rest := Split(s[1..], c);
      if s[0] == c then [""] + rest
      else [[s[0]] + rest[0]] + rest[1..]
  }

  /** ASCII lower-casing of one character; every other character is left alone. */
  function LowerChar(c: char): char {
    if 'A' <= c <= 'Z' then (c as int + 32) as char else c
  }

  /**
   * `s` with its ASCII capitals lowered: two texts are equal ignoring case,
   * as a case-insensitive regular expression without the `u` flag compares
   * an ASCII pattern, exactly when their lowered forms are equal.
   */
  function LowerAscii(s: string): (r: string)
    ensures |r| == |s|
  {
    seq(|s|, i requires 0 <= i < |s| => LowerChar(s[i]))
  }

  /** No ASCII capital is left in the lowered text. */
  lemma LowerAsciiChars(s: string)
    ensures forall i :: 0 <= i < |s| ==> !('A' <= LowerAscii(s)[i] <= 'Z')
  {
  }

  /** Text without ASCII capitals is its own lowered form; in particular lowering twice lowers once. */
  lemma LowerAsciiFixes(s: string)
    requires forall i :: 0 <= i < |s| ==> !('A' <= s[i] <= 'Z')
    ensures LowerAscii(s) == s
    ensures LowerAscii(LowerAscii(s)) == LowerAscii(s)
  {
    LowerAsciiChars(s);
    assert forall i :: 0 <= i < |s| ==> LowerAscii(s)[i] == s[i];
  }

  /** `parts.join(sep)` */
  function Join(parts: seq<string>, sep: string): string
  {
    if |parts| == 0 then ""
    else if |parts| == 1 then parts[0]
    else parts[0] + sep + Join(parts[1..], sep)
  }

  /** Joining the pieces of a split with the separator gives back the original string. */
  lemma {:induction false} JoinSplit(s: string, c: char)
    ensures Join(Split(s, c), [c]) == s
  {
    if s != [] {
      var rest := Split(s[1..], c);
      JoinSplit(s[1..], c);
      if s[0] == c {
        assert Split(s, c) == [""] + rest;
        assert ([""] + rest)[1..] == rest;
        assert s == [c] + s[1..];
      } else {
        assert Split(s, c) == [[s[0]] + rest[0]] + rest[1..];
        if |rest| == 1 {
          assert s == [s[0]] + rest[0];
        } else {
          var tail := rest[1..];
          assert Join(rest, [c]) == rest[0] + [c] + Join(tail, [c]);
          assert ([[s[0]] + rest[0]] + tail)[1..] == tail;
          assert s == [s[0]] + s[1..];
        }
      }
    }
  }

  /** The first piece of a split is exactly the text before the first separator. */
  lemma {:induction false} SplitHead(s: string, c: char)
    ensures |Split(s, c)[0]| <= |s|
    ensures Split(s, c)[0] == s[..|Split(s, c)[0]|]
    ensures |Split(s, c)[0]| < |s| ==> s[|Split(s, c)[0]|] == c
  {
    if s != [] && s[0] != c {
      SplitHead(s[1..], c);
    }
  }

  /** A string without the separator splits into itself alone. */
  lemma {:induction false} SplitWithoutSeparator(s: string, c: char)
    requires c !in s
    ensures Split(s, c) == [s]
  {
    if s != [] {
      SplitWithoutSeparator(s[1..], c);
      assert s == [s[0]] + s[1..];
    }
  }

  /** Text before the first separator becomes the first piece; the rest splits on its own. */
  lemma {:induction false} SplitAtFirst(a: string, c: char, b: string)
    requires c !in a
    ensures Split(a + [c] + b, c) == [a] + Split(b, c)
  {
    if a == [] {
      assert a + [c] + b == [c] + b;
      assert ([c] + b)[1..] == b;
    } else {
      assert (a + [c] + b)[1..] == a[1..] + [c] + b;
      SplitAtFirst(a[1..], c, b);
      assert [a[0]] + a[1..] == a;
    }
  }

  predicate IsDigit(c: char) {
    '0' <= c <= '9'
  }

  predicate AllDigits(s: string) {
    forall i :: 0 <= i < |s| ==> IsDigit(s[i])
  }

  /** The longest prefix of `s` made of decimal digits. */
  function LeadingDigits(s: string): (d: string)
    ensures |d| <= |s| && d == s[..|d|] && AllDigits(d)
    ensures |d| < |s| ==> !IsDigit(s[|d|])
  {
    if s == [] || !IsDigit(s[0]) then ""
    else
      var rest := LeadingDigits(s[1..]);
      assert s[..|rest| + 1] == [s[0]] + s[1..][..|rest|];
      [s[0]] + rest
  }

  /** The number a string of decimal digits denotes. */
  function DigitsValue(d: string): (n: nat)
    requires AllDigits(d)
  {
    if d == [] then 0 else DigitsValue(d[..|d| - 1]) * 10 + (d[|d| - 1] as int - '0' as int)
  }

  /**
   * `parseInt(s, 10)` on text without leading white space: an optional sign,
   * then as many digits as there are; no digit at all is NaN.
   */
  function ParseInt(s: string): (r: Option<int>)
    ensures r.Some? <==> (exists i :: 0 <= i < |s| && i <= 1 && IsDigit(s[i])
                           && (i == 1 ==> s[0] == '-' || s[0] == '+'))
  {
    var signed := |s| > 0 && (s[0] == '-' || s[0] == '+');
    var body := if signed then s[1..] else s;
    var digits := LeadingDigits(body);
    if digits == [] then None
    else
      assert IsDigit(s[if signed then 1 else 0]);
      var n: int := DigitsValue(digits);
      Some(if signed && s[0] == '-' then -n else n)
  }

  /** Text made only of digits is its own longest digit prefix. */
  lemma {:induction false} AllDigitsLeading(s: string)
    requires AllDigits(s)
    ensures LeadingDigits(s) == s
  {
    if s != [] {
      AllDigitsLeading(s[1..]);
    }
  }

  /** Digits that are all zeros denote 0. */
  lemma {:induction false} ZerosValue(d: string)
    requires forall i :: 0 <= i < |d| ==> d[i] == '0'
    ensures AllDigits(d) && DigitsValue(d) == 0
  {
    if d != [] {
      ZerosValue(d[..|d| - 1]);
    }
  }

  /** `n` written in decimal. */
  function DecimalText(n: nat): (s: string)
    ensures s != [] && AllDigits(s)
  {
    if n < 10 then [('0' as int + n) as char]
    else DecimalText(n / 10) + [('0' as int + n % 10) as char]
  }

  /** Reading a number written in decimal gives the number back. */
  lemma {:induction false} DigitsOfDecimal(n: nat)
    ensures DigitsValue(DecimalText(n)) == n
  {
    var s := DecimalText(n);
    if n >= 10 {
      DigitsOfDecimal(n / 10);
      assert s[..|s| - 1] == DecimalText(n / 10);
    } else {
      assert s[..0] == [];
    }
  }

  /** `parseInt` of a number written in decimal is that number; with a minus sign, its negation. */
  lemma ParseDecimal(n: nat)
    ensures ParseInt(DecimalText(n)) == Some(n)
    ensures ParseInt("-" + DecimalText(n)) == Some(0 - n)
  {
    var s := DecimalText(n);
    DigitsOfDecimal(n);
    assert LeadingDigits(s) == s;
    assert ("-" + s)[1..] == s;
    assert LeadingDigits(("-" + s)[1..]) == s;
  }

  /** `parseInt("")` is NaN. */
  lemma ParseIntEmpty()
    ensures ParseInt("") == None
  {
  }
}
