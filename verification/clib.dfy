/**
 * The parts of the C library the sources rely on: reading a character of a
 * NUL-terminated string, `isspace`, `isdigit`, `strstr`, `strtol` and `atoi`
 * for reading numbers, `%d` and `%02X` for writing them.
 *
 * Reading a number is modelled as the value of the longest prefix of digits
 * valid in the base, 0 when there is none; leading blanks, signs, a `0x`
 * prefix and overflow are not part of this model.
 */
module CLib {
  import opened Types

  /**
   * `s[i]` on a NUL-terminated string: the terminator and whatever an index
   * outside the text would read are both taken as NUL.
   */
  function CharAt(s: string, i: int): (c: char)
    ensures 0 <= i < |s| ==> c == s[i]
  {
    if 0 <= i < |s| then s[i] else '\0'
  }

  /** `strlen`: the position of the first NUL. */
  function StrLen(s: seq<char>): (n: nat)
    requires '\0' in s
    ensures n < |s| && s[n] == '\0'
    ensures forall k :: 0 <= k < n ==> s[k] != '\0'
  {
    if s[0] == '\0' then 0 else 1 + StrLen(s[1..])
  }

  /** The text of a NUL-terminated string held in `s`. */
  function CString(s: seq<char>): (t: string)
    requires '\0' in s
    ensures '\0' !in t
  {
    s[..StrLen(s)]
  }

  /** `isspace` in the C locale: blank, tab, newline, vertical tab, form feed, return. */
  predicate IsSpace(c: char) {
    c == ' ' || c == '\t' || c == '\n' || c == 11 as char || c == 12 as char || c == '\r'
  }

  /** `strstr(s, p) != NULL`: `p` occurs in `s` as a contiguous run. */
  predicate Contains(s: string, p: string) {
    |p| <= |s| && (s[..|p|] == p || Contains(s[1..], p))
  }

  /** A pattern whose first character does not occur in `s` does not occur in `s`. */
  lemma {:induction false} NotContains(s: string, p: string)
    requires 0 < |p| && p[0] !in s
    ensures !Contains(s, p)
  {
    if |p| <= |s| {
      assert s[..|p|][0] == s[0];
      NotContains(s[1..], p);
    }
  }

  /** A pattern at a known position does occur. */
  lemma {:induction false} ContainsAt(s: string, p: string, i: nat)
    requires i + |p| <= |s| && s[i..i + |p|] == p
    ensures Contains(s, p)
  {
    if i > 0 {
      assert s[1..][i - 1..i - 1 + |p|] == s[i..i + |p|];
      ContainsAt(s[1..], p, i - 1);
    }
  }

  /** The value of a digit character in any base up to 36; 36 means "not a digit". */
  function DigitValue(c: char): (v: nat)
    ensures v <= 36
  {
    if '0' <= c <= '9' then c as int - '0' as int
    else if 'a' <= c <= 'z' then c as int - 'a' as int + 10
    else if 'A' <= c <= 'Z' then c as int - 'A' as int + 10
    else 36
  }

  /** `isdigit`. */
  predicate IsDigit(c: char) {
    '0' <= c <= '9'
  }

  /** Whether `c` is a digit of `base` for `strtol`. */
  predicate IsDigitIn(c: char, base: nat) {
    DigitValue(c) < base
  }

  /** The number of leading characters of `s` that are digits of `base`. */
  function DigitPrefix(s: string, base: nat): (n: nat)
    ensures n <= |s|
    ensures forall i :: 0 <= i < n ==> IsDigitIn(s[i], base)
    ensures n < |s| ==> !IsDigitIn(s[n], base)
  {
    if |s| == 0 || !IsDigitIn(s[0], base) then 0
    else 1 + DigitPrefix(s[1..], base)
  }

  /** The value of a string of digits of `base`, most significant first. */
  function ValueOf(s: string, base: nat): nat {
    if |s| == 0 then 0
    else ValueOf(s[..|s| - 1], base) * base + DigitValue(s[|s| - 1])
  }

  /** `strtol(s, NULL, base)`: the value of the longest digit prefix. */
  function StrToL(s: string, base: nat): nat {
    ValueOf(s[..DigitPrefix(s, base)], base)
  }

  /** `atoi(s)`: `strtol` in base 10. */
  function Atoi(s: string): nat {
    StrToL(s, 10)
  }

  /** The character of a digit value, upper case above 9, as `%X` writes it. */
  function DigitChar(d: nat): (c: char)
    requires d < 16
    ensures DigitValue(c) == d
    ensures '0' <= c <= '9' || 'A' <= c <= 'F'
  {
    if d < 10 then (48 + d) as char else (55 + d) as char
  }

  /** `%02X` of a byte: two upper-case hexadecimal digits. */
  function Hex2(b: Byte): (r: string)
    ensures |r| == 2
    ensures forall i :: 0 <= i < 2 ==> IsDigitIn(r[i], 16) && !('a' <= r[i] <= 'z')
  {
    [DigitChar(b / 16), DigitChar(b % 16)]
  }

  /** `%d` of a non-negative number: its decimal digits without leading zeros. */
  function Decimal(n: nat): (r: string)
    ensures 0 < |r|
    ensures forall i :: 0 <= i < |r| ==> IsDigit(r[i])
    ensures |r| > 1 ==> r[0] != '0'
  {
    if n < 10 then [DigitChar(n)]
    else Decimal(n / 10) + [DigitChar(n % 10)]
  }

  /** Reading back what `%02X` wrote gives the byte again. */
  lemma Hex2RoundTrip(b: Byte)
    ensures StrToL(Hex2(b), 16) == b
  {
    var r := Hex2(b);
    assert r[..DigitPrefix(r, 16)] == r;
    assert r[..1] == [r[0]];
    assert ValueOf(r[..1], 16) == b / 16;
  }

  /** Writing two bytes the same way gives the same text only for the same byte. */
  lemma Hex2Injective(a: Byte, b: Byte)
    ensures Hex2(a) == Hex2(b) <==> a == b
  {
    if Hex2(a) == Hex2(b) {
      Hex2RoundTrip(a);
      Hex2RoundTrip(b);
    }
  }

  /** `atoi` reads back what `%d` wrote. */
  lemma {:induction false} DecimalRoundTrip(n: nat)
    ensures Atoi(Decimal(n)) == n
    ensures ValueOf(Decimal(n), 10) == n
  {
    var r := Decimal(n);
    assert forall i :: 0 <= i < |r| ==> IsDigitIn(r[i], 10);
    assert r[..DigitPrefix(r, 10)] == r;
    if n >= 10 {
      DecimalRoundTrip(n / 10);
      assert r[..|r| - 1] == Decimal(n / 10);
    } else {
      assert r[..|r| - 1] == [];
    }
    assert ValueOf(r, 10) == n;
    assert StrToL(r, 10) == ValueOf(r, 10);
  }

  /** Distinct numbers have distinct decimal texts. */
  lemma DecimalInjective(m: nat, n: nat)
    ensures Decimal(m) == Decimal(n) <==> m == n
  {
    if Decimal(m) == Decimal(n) {
      DecimalRoundTrip(m);
      DecimalRoundTrip(n);
    }
  }
}
