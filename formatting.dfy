/** Fixed-width integers and the decimal rendering `format!("{}", n)` performs. */
module Formatting {

  /** Rust `u8`. */
  newtype u8 = x: int | 0 <= x < 0x100

  /** Rust `u16`, the type of every port number. */
  newtype u16 = x: int | 0 <= x < 0x1_0000

  predicate IsDigit(c: char) {
    '0' <= c <= '9'
  }

  /** True when `c` does not occur in `s`. */
  predicate Lacks(s: string, c: char) {
    forall i :: 0 <= i < |s| ==> s[i] != c
  }

  function DigitChar(d: nat): (c: char)
    requires d < 10
    ensures IsDigit(c) && c as int - '0' as int == d
  {
    ('0' as int + d) as char
  }

  function DigitValue(c: char): nat
    requires IsDigit(c)
  {
    c as int - '0' as int
  }

  /** The decimal digits of `n`, most significant first, with no leading zero. */
  function Decimal(n: nat): (s: string)
    ensures |s| > 0
    ensures forall i :: 0 <= i < |s| ==> IsDigit(s[i])
    ensures |s| > 1 ==> s[0] != '0'
    decreases n
  {
    if n < 10 then [DigitChar(n)] else Decimal(n / 10) + [DigitChar(n % 10)]
  }

  /** Reads a string of digits back as a number; the partner of `Decimal`. */
  function ParseDecimal(s: string): nat
    requires forall i :: 0 <= i < |s| ==> IsDigit(s[i])
  {
    if s == [] then 0 else 10 * ParseDecimal(s[..|s| - 1]) + DigitValue(s[|s| - 1])
  }

  /** Decimal rendering loses nothing: parsing it gives the number back. */
  lemma {:induction false} ParseDecimalOfDecimal(n: nat)
    ensures ParseDecimal(Decimal(n)) == n
  {
    if n >= 10 {
      var s := Decimal(n);
      assert s[..|s| - 1] == Decimal(n / 10);
      ParseDecimalOfDecimal(n / 10);
    }
  }

  /** Decimal digits never contain the separators used in profile ids. */
  lemma DecimalLacksSeparators(n: nat)
    ensures Lacks(Decimal(n), ':') && Lacks(Decimal(n), '@')
  {
  }

  /** Index of the last occurrence of `c` in `s`, or -1. */
  function LastIndexOf(s: string, c: char): int
  {
    if s == [] then -1
    else if s[|s| - 1] == c then |s| - 1
    else LastIndexOf(s[..|s| - 1], c)
  }

  /** Index of the first occurrence of `c` in `s`, or `|s|`. */
  function FirstIndexOf(s: string, c: char): nat
  {
    if s == [] || s[0] == c then 0 else 1 + FirstIndexOf(s[1..], c)
  }

  lemma {:induction false} LastIndexOfSeparated(x: string, d: string, sep: char)
    requires Lacks(d, sep)
    ensures LastIndexOf(x + [sep] + d, sep) == |x|
  {
    if d != [] {
      var d' := d[..|d| - 1];
      assert (x + [sep] + d)[..|x + [sep] + d| - 1] == x + [sep] + d';
      LastIndexOfSeparated(x, d', sep);
    }
  }

  lemma {:induction false} FirstIndexOfSeparated(u: string, a: string, sep: char)
    requires Lacks(u, sep)
    ensures FirstIndexOf(u + [sep] + a, sep) == |u|
  {
    if u != [] {
      assert (u + [sep] + a)[1..] == u[1..] + [sep] + a;
      FirstIndexOfSeparated(u[1..], a, sep);
    }
  }
}
