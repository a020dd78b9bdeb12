/**
 The string operations the upload handler is built from: JavaScript's
 `String.prototype.split` with a one-character separator and `pop()` on the
 array it returns, searching a string for a character, and the decimal text a
 template literal produces for a non-negative integer below 2^53.
 */
module Strings {
  import opened Wrappers

  /* ---------- decimal numerals ---------- */

  predicate IsDigit(c: char) {
    '0' <= c <= '9'
  }

  function DigitValue(c: char): (d: nat)
    requires IsDigit(c)
    ensures d < 10
  {
    c as int - '0' as int
  }

  function DigitChar(d: nat): (c: char)
    requires d < 10
    ensures IsDigit(c) && DigitValue(c) == d
  {
    ('0' as int + d) as char
  }

  predicate AllDigits(s: string) {
    forall i :: 0 <= i < |s| ==> IsDigit(s[i])
  }

  /** The numerals JavaScript prints for a non-negative integer: at least one
      digit and no leading zero, except for "0" itself. */
  predicate IsDecimal(s: string) {
    |s| >= 1 && AllDigits(s) && (|s| > 1 ==> s[0] != '0')
  }

  /** `${n}` for a non-negative integer `n` below 2^53, which covers every
      `Date.now()` value. */
  function NatToDecimal(n: nat): (s: string)
    ensures IsDecimal(s)
    ensures s[0] == '0' <==> n == 0
  {
    if n < 10 then [DigitChar(n)] else NatToDecimal(n / 10) + [DigitChar(n % 10)]
  }

  /** The value of a string of digits, most significant digit first. */
  function DecimalValue(s: string): nat
    requires AllDigits(s)
  {
    if s == [] then 0 else DecimalValue(s[..|s| - 1]) * 10 + DigitValue(s[|s| - 1])
  }

  /** Reading back the numeral of `n` gives `n`. */
  lemma {:induction false} DecimalValueOfNatToDecimal(n: nat)
    ensures DecimalValue(NatToDecimal(n)) == n
  {
    if n >= 10 {
      var s := NatToDecimal(n);
      var p := NatToDecimal(n / 10);
      assert s[..|s| - 1] == p;
      DecimalValueOfNatToDecimal(n / 10);
    }
  }

  /** A numeral whose first digit is not zero has a value of at least one. */
  lemma {:induction false} DecimalValuePositive(s: string)
    requires |s| >= 1 && AllDigits(s) && s[0] != '0'
    ensures DecimalValue(s) >= DigitValue(s[0]) >= 1
  {
    if |s| > 1 {
      DecimalValuePositive(s[..|s| - 1]);
    }
  }

  /** Every canonical numeral is the numeral of its own value. */
  lemma {:induction false} NatToDecimalOfDecimalValue(s: string)
    requires IsDecimal(s)
    ensures NatToDecimal(DecimalValue(s)) == s
  {
    if |s| > 1 {
      var p := s[..|s| - 1];
      DecimalValuePositive(p);
      NatToDecimalOfDecimalValue(p);
      var n := DecimalValue(s);
      assert n / 10 == DecimalValue(p) && n % 10 == DigitValue(s[|s| - 1]);
      assert s == p + [s[|s| - 1]];
    }
  }

  /** Different timestamps print as different numerals. */
  lemma NatToDecimalInjective(m: nat, n: nat)
    ensures NatToDecimal(m) == NatToDecimal(n) <==> m == n
  {
    DecimalValueOfNatToDecimal(m);
    DecimalValueOfNatToDecimal(n);
  }

  /* ---------- searching for a character ---------- */

  /** The first position of `c` in `s`, if any. */
  function IndexOf(s: string, c: char): (r: Option<nat>)
    ensures r.Some? ==> r.value < |s| && s[r.value] == c && c !in s[..r.value]
    ensures r.None? <==> c !in s
  {
    if s == [] then None
    else if s[0] == c then Some(0)
    else match IndexOf(s[1..], c)
      case None => None
      case Some(i) =>
        assert s[..i + 1] == [s[0]] + s[1..][..i];
        Some(i + 1)
  }

  /** The last position of `c` in `s`, if any. */
  function LastIndexOf(s: string, c: char): (r: Option<nat>)
    ensures r.Some? ==> r.value < |s| && s[r.value] == c && c !in s[r.value + 1..]
    ensures r.None? <==> c !in s
  {
    if s == [] then None
    else if s[|s| - 1] == c then Some(|s| - 1)
    else
      var r := LastIndexOf(s[..|s| - 1], c);
      assert r.Some? ==> s[r.value + 1..] == s[..|s| - 1][r.value + 1..] + [s[|s| - 1]];
      assert s == s[..|s| - 1] + [s[|s| - 1]];
      r
  }

  /** A position holding `c` with no `c` before it is the one IndexOf finds. */
  lemma IndexOfUnique(s: string, c: char, i: nat)
    requires i < |s| && s[i] == c && c !in s[..i]
    ensures IndexOf(s, c) == Some(i)
  {
  }

  /** A position holding `c` with no `c` after it is the one LastIndexOf finds. */
  lemma LastIndexOfUnique(s: string, c: char, i: nat)
    requires i < |s| && s[i] == c && c !in s[i + 1..]
    ensures LastIndexOf(s, c) == Some(i)
  {
  }

  /* ---------- split and pop ---------- */

  /** `s.split(sep)` for a one-character separator: the pieces between the
      separators, always at least one (an empty string splits into [""]). */
  function Split(s: string, sep: char): (parts: seq<string>)
    ensures |parts| >= 1
    ensures forall i :: 0 <= i < |parts| ==> sep !in parts[i]
    ensures |parts| == 1 <==> sep !in s
    ensures sep !in s ==> parts == [s]
  {
    if s == [] then [""]
    else
      var rest := Split(s[1..], sep);
      if s[0] == sep then [""] + rest
      else
        assert sep !in s ==> [s[0]] + rest[0] == s;
        [[s[0]] + rest[0]] + rest[1..]
  }

  /** `parts.join(sep)`. */
  function Join(parts: seq<string>, sep: char): string
    requires |parts| >= 1
  {
    if |parts| == 1 then parts[0] else parts[0] + [sep] + Join(parts[1..], sep)
  }

  /** Joining the pieces of a split with the same separator gives back the
      string: split loses nothing but the separators. */
  lemma {:induction false} JoinSplit(s: string, sep: char)
    ensures Join(Split(s, sep), sep) == s
  {
    if s != [] {
      var rest := Split(s[1..], sep);
      JoinSplit(s[1..], sep);
      var parts := Split(s, sep);
      if s[0] == sep {
        assert parts[1..] == rest;
      } else if |rest| > 1 {
        assert parts[1..] == rest[1..];
        assert Join(rest, sep) == rest[0] + [sep] + Join(rest[1..], sep);
      }
    }
  }

  function Last<T>(xs: seq<T>): T
    requires |xs| >= 1
  {
    xs[|xs| - 1]
  }

  /** The last piece of a split is the text after the last separator, or the
      whole string when there is no separator. */
  lemma {:induction false} LastOfSplit(s: string, sep: char)
    ensures Last(Split(s, sep)) == match LastIndexOf(s, sep)
                                   case None => s
                                   case Some(j) => s[j + 1..]
  {
    if s != [] && sep in s {
      var rest := Split(s[1..], sep);
      var parts := Split(s, sep);
      assert Last(parts) == Last(rest);
      if sep in s[1..] {
        LastOfSplit(s[1..], sep);
        var j := LastIndexOf(s[1..], sep).value;
        assert s[1..][j + 1..] == s[j + 2..];
        LastIndexOfUnique(s, sep, j + 1);
      } else {
        assert s[0] == sep;
        assert s[1..] == s[0 + 1..];
        LastIndexOfUnique(s, sep, 0);
      }
    }
  }
}
