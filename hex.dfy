/**
 * Lower-case hexadecimal text, as produced by `BN.prototype.toString(16)` and
 * `Buffer.prototype.toString('hex')`, and its value when read back.
 */
module Hex {
  import opened Text

  const Digits := "0123456789abcdef"

  function Digit(d: nat): char
    requires d < 16
  {
    Digits[d]
  }

  predicate IsHexDigit(c: char) {
    '0' <= c <= '9' || 'a' <= c <= 'f'
  }

  predicate IsHex(s: string) {
    forall i :: 0 <= i < |s| ==> IsHexDigit(s[i])
  }

  function DigitValue(c: char): (d: nat)
    ensures d < 16
  {
    if '0' <= c <= '9' then c as int - '0' as int
    else if 'a' <= c <= 'f' then c as int - 'a' as int + 10
    else 0
  }

  lemma DigitValueOfDigit(d: nat)
    requires d < 16
    ensures IsHexDigit(Digit(d)) && DigitValue(Digit(d)) == d
  {
  }

  function Pow16(k: nat): (p: nat)
    ensures p >= 1
  {
    if k == 0 then 1 else 16 * Pow16(k - 1)
  }

  /** BN.prototype.toString(16): the shortest lower-case hex text of n ("0" for zero). */
  function FromNat(n: nat): (s: string)
    ensures |s| >= 1 && IsHex(s)
  {
    if n < 16 then [Digit(n)] else FromNat(n / 16) + [Digit(n % 16)]
  }

  /** The value of a hex text, most significant digit first. */
  function ToNat(s: string): nat {
    if s == [] then 0 else ToNat(s[..|s| - 1]) * 16 + DigitValue(s[|s| - 1])
  }

  lemma {:induction false} ToNatFromNat(n: nat)
    ensures ToNat(FromNat(n)) == n
  {
    DigitValueOfDigit(n % 16);
    if n >= 16 {
      ToNatFromNat(n / 16);
      var s := FromNat(n / 16) + [Digit(n % 16)];
      assert s[..|s| - 1] == FromNat(n / 16);
    }
  }

  /** Leading zero digits do not change the value of a hex text. */
  lemma {:induction false} ToNatLeadingZeros(k: nat, s: string)
    ensures ToNat(Zeros(k) + s) == ToNat(s)
  {
    if k > 0 {
      var rest := Zeros(k - 1) + s;
      assert Zeros(k) + s == "0" + rest;
      ToNatLeadingZero(rest);
      ToNatLeadingZeros(k - 1, s);
    } else {
      assert Zeros(k) + s == s;
    }
  }

  lemma {:induction false} ToNatLeadingZero(s: string)
    ensures ToNat("0" + s) == ToNat(s)
    decreases |s|
  {
    if s != [] {
      var t := "0" + s;
      assert t[..|t| - 1] == "0" + s[..|s| - 1];
      ToNatLeadingZero(s[..|s| - 1]);
    }
  }

  /** A number below 16^k has at most k hex digits (k >= 1). */
  lemma {:induction false} FromNatLength(n: nat, k: nat)
    requires k >= 1 && n < Pow16(k)
    ensures |FromNat(n)| <= k
  {
    if n >= 16 {
      assert Pow16(1) == 16;
      assert k >= 2;
      assert n / 16 < Pow16(k - 1);
      FromNatLength(n / 16, k - 1);
    }
  }

  /** Buffer.prototype.toString('hex'): two lower-case digits per byte. */
  function FromBytes(b: seq<byte>): (s: string)
    ensures |s| == 2 * |b| && IsHex(s)
  {
    if b == [] then [] else [Digit(b[0] / 16), Digit(b[0] % 16)] + FromBytes(b[1..])
  }
}
