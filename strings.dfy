/**
 * The JavaScript string built-ins the core uses on numbers: `Number.prototype.toString`
 * in radix 10 and 16, `String.prototype.padStart`, `toUpperCase` and `replace`
 * with a one-character pattern, together with the digit readers that invert them.
 */
module Strings {

  // ---------------------------------------------------------------- decimal

  predicate IsDigit(c: char) { '0' <= c <= '9' }

  predicate AllDigits(s: string) { forall i :: 0 <= i < |s| ==> IsDigit(s[i]) }

  function DigitValue(c: char): nat
    requires IsDigit(c)
  {
    c as int - '0' as int
  }

  function DigitChar(d: nat): (c: char)
    requires d < 10
    ensures IsDigit(c) && DigitValue(c) == d
  {
    ('0' as int + d) as char
  }

  /** The number a string of decimal digits denotes (leading zeros allowed). */
  function DecimalValue(s: string): nat
    requires AllDigits(s)
  {
    if s == [] then 0 else DecimalValue(s[..|s| - 1]) * 10 + DigitValue(s[|s| - 1])
  }

  /** `n.toString()` for a non-negative integer: its shortest decimal spelling. */
  function NatToDecimal(n: nat): (s: string)
    ensures 1 <= |s| && AllDigits(s) && DecimalValue(s) == n
    ensures n < 10 <==> |s| == 1
    ensures n < 100 ==> |s| <= 2
  {
    if n < 10 then [DigitChar(n)]
    else
      var init := NatToDecimal(n / 10);
      var s := init + [DigitChar(n % 10)];
      assert s[..|s| - 1] == init;
      s
  }

  // ---------------------------------------------------------------- padding

  /** `s.padStart(width, fill)` with a one-character fill string. */
  function PadStart(s: string, width: nat, fill: char): (r: string)
    ensures |r| == if |s| >= width then |s| else width
    ensures r[|r| - |s|..] == s
    ensures forall i :: 0 <= i < |r| - |s| ==> r[i] == fill
  {
    if |s| >= width then s else seq(width - |s|, _ => fill) + s
  }

  lemma {:induction false} LeadingZeros(z: string, s: string)
    requires AllDigits(z) && AllDigits(s)
    requires forall i :: 0 <= i < |z| ==> z[i] == '0'
    ensures AllDigits(z + s) && DecimalValue(z + s) == DecimalValue(s)
  {
    assert AllDigits(z + s);
    if s == [] {
      assert z + s == z;
      ZerosValue(z);
    } else {
      var t := z + s;
      assert t[..|t| - 1] == z + s[..|s| - 1];
      LeadingZeros(z, s[..|s| - 1]);
    }
  }

  lemma {:induction false} ZerosValue(z: string)
    requires forall i :: 0 <= i < |z| ==> z[i] == '0'
    ensures AllDigits(z) && DecimalValue(z) == 0
  {
    if z != [] {
      ZerosValue(z[..|z| - 1]);
    }
  }

  /** `n.toString().padStart(2, '0')`: at least two digits, still denoting `n`. */
  function TwoDigits(n: nat): (s: string)
    ensures 2 <= |s| && AllDigits(s) && DecimalValue(s) == n
    ensures n < 100 ==> |s| == 2
  {
    var d := NatToDecimal(n);
    var s := PadStart(d, 2, '0');
    LeadingZeros(s[..|s| - |d|], d);
    assert s == s[..|s| - |d|] + d;
    s
  }

  // ---------------------------------------------------------------- hexadecimal

  predicate IsLowerHex(c: char) { '0' <= c <= '9' || 'a' <= c <= 'f' }

  predicate IsUpperHex(c: char) { '0' <= c <= '9' || 'A' <= c <= 'F' }

  predicate AllUpperHex(s: string) { forall i :: 0 <= i < |s| ==> IsUpperHex(s[i]) }

  function UpperHexValue(c: char): nat
    requires IsUpperHex(c)
  {
    if c <= '9' then c as int - '0' as int else c as int - 'A' as int + 10
  }

  /** The number a string of upper-case hexadecimal digits denotes. */
  function HexValue(s: string): nat
    requires AllUpperHex(s)
  {
    if s == [] then 0 else HexValue(s[..|s| - 1]) * 16 + UpperHexValue(s[|s| - 1])
  }

  /** The digit `Number.prototype.toString(16)` writes for `d`: lower case. */
  function LowerHexChar(d: nat): (c: char)
    requires d < 16
    ensures IsLowerHex(c)
  {
    if d < 10 then ('0' as int + d) as char else ('a' as int + d - 10) as char
  }

  /** `n.toString(16)` for a non-negative integer. */
  function NatToHex(n: nat): (s: string)
    ensures 1 <= |s|
    ensures forall i :: 0 <= i < |s| ==> IsLowerHex(s[i])
    ensures n < 256 ==> |s| <= 2
  {
    if n < 16 then [LowerHexChar(n)] else NatToHex(n / 16) + [LowerHexChar(n % 16)]
  }

  /** `n.toString(16)` for any integer: a minus sign before the magnitude's digits. */
  function IntToHex(n: int): string
  {
    if n < 0 then "-" + NatToHex(-n) else NatToHex(n)
  }

  // ---------------------------------------------------------------- case and replace

  /** `toUpperCase` on one character, for the ASCII letters (the only letters that occur here). */
  function UpperChar(c: char): char
  {
    if 'a' <= c <= 'z' then (c as int - 'a' as int + 'A' as int) as char else c
  }

  function ToUpper(s: string): (r: string)
    ensures |r| == |s| && forall i :: 0 <= i < |s| ==> r[i] == UpperChar(s[i])
  {
    seq(|s|, i requires 0 <= i < |s| => UpperChar(s[i]))
  }

  /** Upper-casing the lower-case spelling of `n`, padded with zeros, spells `n` in upper case. */
  lemma UpperHexOfNat(n: nat, width: nat)
    ensures var s := ToUpper(PadStart(NatToHex(n), width, '0'));
            AllUpperHex(s) && HexValue(s) == n
  {
    var h := NatToHex(n);
    var p := PadStart(h, width, '0');
    var k := |p| - |h|;
    var z := p[..k];
    assert p == z + h;
    assert ToUpper(p) == ToUpper(z) + ToUpper(h);
    assert ToUpper(z) == z;
    UpperZeros(z);
    UpperHexDigits(n);
    HexLeadingZeros(z, ToUpper(h));
  }

  lemma {:induction false} UpperHexDigits(n: nat)
    ensures AllUpperHex(ToUpper(NatToHex(n))) && HexValue(ToUpper(NatToHex(n))) == n
  {
    var h := NatToHex(n);
    var u := ToUpper(h);
    if n >= 16 {
      UpperHexDigits(n / 16);
      assert u[..|u| - 1] == ToUpper(NatToHex(n / 16));
    }
  }

  lemma {:induction false} UpperZeros(z: string)
    requires forall i :: 0 <= i < |z| ==> z[i] == '0'
    ensures AllUpperHex(z) && HexValue(z) == 0
  {
    if z != [] {
      UpperZeros(z[..|z| - 1]);
    }
  }

  lemma {:induction false} HexLeadingZeros(z: string, s: string)
    requires AllUpperHex(z) && HexValue(z) == 0 && AllUpperHex(s)
    ensures AllUpperHex(z + s) && HexValue(z + s) == HexValue(s)
  {
    if s == [] {
      assert z + s == z;
    } else {
      var t := z + s;
      assert t[..|t| - 1] == z + s[..|s| - 1];
      HexLeadingZeros(z, s[..|s| - 1]);
    }
  }

  /** The index of the first occurrence of `c` in `s`. */
  function IndexOf(s: string, c: char): (k: nat)
    requires c in s
    ensures k < |s| && s[k] == c && c !in s[..k]
  {
    if s[0] == c then 0 else 1 + IndexOf(s[1..], c)
  }

  /** `s.replace(from, to)` with one-character strings: only the FIRST occurrence is replaced. */
  function ReplaceFirst(s: string, from: char, to: char): (r: string)
    ensures from !in s ==> r == s
    ensures from in s ==> r == s[..IndexOf(s, from)] + [to] + s[IndexOf(s, from) + 1..]
    ensures |r| == |s|
    ensures from in s ==>
              && r[IndexOf(s, from)] == to
              && from !in r[..IndexOf(s, from)]
              && forall j | 0 <= j < |s| && j != IndexOf(s, from) :: r[j] == s[j]
  {
    if from in s then
      var k := IndexOf(s, from);
      s[..k] + [to] + s[k + 1..]
    else s
  }
}
