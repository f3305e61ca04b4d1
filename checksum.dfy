/** The checksum trailer of a telemetry frame.

    `create_validate` folds exclusive-or over the character codes of a frame
    body, starting from 0, and renders the result the way Python's
    `str(hex(v))[2:].zfill(2).upper()` does: lower-case hexadecimal without
    leading zeros, left-padded with '0' to at least two digits, then upper-cased.
    This module defines that computation, the loop that performs it, and a
    parser for hexadecimal text so that the rendering can be read back. */
module FrameChecksum {

  /** 2 to the power k. */
  function Pow2(k: nat): (r: nat)
    ensures r >= 1
  {
    if k == 0 then 1 else 2 * Pow2(k - 1)
  }

  /** Bitwise exclusive-or of two non-negative integers (Python's `^`),
      one bit at a time from the least significant end. */
  function Xor(a: nat, b: nat): (r: nat)
    ensures r % 2 == (a + b) % 2
    ensures r <= a + b
    ensures a == b ==> r == 0
  {
    if a == 0 then b
    else if b == 0 then a
    else
      var h, bit := Xor(a / 2, b / 2), if a % 2 == b % 2 then 0 else 1;
      XorDigit(a, b, h, bit);
      2 * h + bit
  }

  /** One step of `Xor`: the low bit and the bound carry over from the
      higher bits. */
  lemma XorDigit(a: nat, b: nat, h: nat, bit: nat)
    requires bit == if a % 2 == b % 2 then 0 else 1
    requires h <= a / 2 + b / 2
    ensures (2 * h + bit) % 2 == (a + b) % 2
    ensures 2 * h + bit <= a + b
  {
    assert a + b == 2 * (a / 2 + b / 2) + a % 2 + b % 2;
  }

  /** Python's `ord`: the code point of a character. */
  function Ord(c: char): nat
  {
    c as int
  }

  /** The sum of the character codes of `s`. */
  function CodeSum(s: string): nat
  {
    if s == [] then 0 else CodeSum(s[..|s| - 1]) + Ord(s[|s| - 1])
  }

  lemma SameParity(x: nat, y: nat, c: nat)
    requires x % 2 == y % 2
    ensures (x + c) % 2 == (y + c) % 2
  {
  }

  /** The value `data_sum` holds after the loop of `create_validate` has
      processed every character of `s`, in order. Exclusive-or is addition
      without carries: the fold never exceeds the sum of the codes and has
      the same parity. */
  function XorFold(s: string): (r: nat)
    ensures r <= CodeSum(s)
    ensures r % 2 == CodeSum(s) % 2
    ensures |s| == 1 ==> r == Ord(s[0])
  {
    if s == [] then 0
    else
      var x, c := XorFold(s[..|s| - 1]), Ord(s[|s| - 1]);
      SameParity(x, CodeSum(s[..|s| - 1]), c);
      Xor(x, c)
  }

  predicate IsLowerHexDigit(c: char)
  {
    '0' <= c <= '9' || 'a' <= c <= 'f'
  }

  predicate IsUpperHexDigit(c: char)
  {
    '0' <= c <= '9' || 'A' <= c <= 'F'
  }

  /** The lower-case digit Python's `hex` writes for a value below 16. */
  function HexDigit(d: nat): (c: char)
    requires d < 16
    ensures IsLowerHexDigit(c)
  {
    if d < 10 then ('0' as int + d) as char else ('a' as int + d - 10) as char
  }

  /** `hex(n)[2:]`: lower-case hexadecimal without leading zeros ("0" for 0). */
  function Hex(n: nat): (r: string)
    ensures 1 <= |r|
    ensures forall k :: 0 <= k < |r| ==> IsLowerHexDigit(r[k])
    ensures n > 0 ==> r[0] != '0'
  {
    if n < 16 then [HexDigit(n)] else Hex(n / 16) + [HexDigit(n % 16)]
  }

  function Zeros(k: nat): (r: string)
    ensures |r| == k
  {
    seq(k, _ => '0')
  }

  /** Python's `str.zfill(width)` on text without a sign: left-pad with '0'. */
  function ZFill(s: string, width: nat): (r: string)
    ensures |r| == if |s| >= width then |s| else width
  {
    if |s| >= width then s else Zeros(width - |s|) + s
  }

  /** `zfill` keeps the text as it is and puts only '0's in front of it. */
  lemma ZFillPads(s: string, width: nat)
    ensures var r := ZFill(s, width);
      r[|r| - |s|..] == s && forall k :: 0 <= k < |r| - |s| ==> r[k] == '0'
  {
  }

  /** Padding a lower-case hexadecimal text keeps it lower-case hexadecimal. */
  lemma ZFillDigits(s: string, width: nat)
    requires forall k :: 0 <= k < |s| ==> IsLowerHexDigit(s[k])
    ensures forall k :: 0 <= k < |ZFill(s, width)| ==> IsLowerHexDigit(ZFill(s, width)[k])
  {
    if |s| < width {
      var z := Zeros(width - |s|);
      assert forall k :: 0 <= k < |z| ==> z[k] == '0';
    }
  }

  /** Python's `str.upper()` restricted to ASCII, which is all a hex rendering holds. */
  function UpperChar(c: char): char
  {
    if 'a' <= c <= 'z' then (c as int - 32) as char else c
  }

  function Upper(s: string): (r: string)
    ensures |r| == |s|
    ensures forall k :: 0 <= k < |s| ==> r[k] == UpperChar(s[k])
  {
    if s == [] then [] else Upper(s[..|s| - 1]) + [UpperChar(s[|s| - 1])]
  }

  /** `create_validate(data)`: the checksum text of a frame body. It is never
      shorter than two digits, is "00" for an empty body, and is exactly two
      digits precisely when the fold stays below 256. */
  function Checksum(body: string): (r: string)
    ensures |r| >= 2
    ensures forall k :: 0 <= k < |r| ==> IsUpperHexDigit(r[k])
    ensures body == [] ==> r == "00"
    ensures |r| == 2 <==> XorFold(body) < 256
  {
    HexLength(XorFold(body));
    Upper(ZFill(Hex(XorFold(body)), 2))
  }

  /** The loop of `create_validate`, as written: fold, then render. */
  method CreateValidate(data: string) returns (r: string)
    ensures r == Checksum(data)
  {
    var dataSum: nat := 0;
    for i := 0 to |data|
      invariant dataSum == XorFold(data[..i])
    {
      assert data[..i + 1][..i] == data[..i];
      dataSum := Xor(dataSum, Ord(data[i]));
    }
    assert data[..|data|] == data;
    r := Upper(ZFill(Hex(dataSum), 2));
  }

  // ---------------------------------------------------------------------
  // Reading a rendering back

  /** The value of one hexadecimal digit, either case (0 for anything else). */
  function DigitValue(c: char): nat
  {
    if '0' <= c <= '9' then c as int - '0' as int
    else if 'a' <= c <= 'f' then c as int - 'a' as int + 10
    else if 'A' <= c <= 'F' then c as int - 'A' as int + 10
    else 0
  }

  /** The number a string of hexadecimal digits denotes, most significant first. */
  function HexValue(s: string): nat
  {
    if s == [] then 0 else 16 * HexValue(s[..|s| - 1]) + DigitValue(s[|s| - 1])
  }

  // ---------------------------------------------------------------------
  // Properties

  /** Exclusive-or never sets a bit at or above the highest bit of its operands. */
  lemma {:induction false} XorBelow(a: nat, b: nat, k: nat)
    requires a < Pow2(k) && b < Pow2(k)
    ensures Xor(a, b) < Pow2(k)
  {
    if a != 0 && b != 0 {
      assert k > 0;
      XorBelow(a / 2, b / 2, k - 1);
    }
  }

  /** Folding codes that all fit in k bits gives a value that fits in k bits. */
  lemma {:induction false} XorFoldBelow(s: string, k: nat)
    requires forall i :: 0 <= i < |s| ==> Ord(s[i]) < Pow2(k)
    ensures XorFold(s) < Pow2(k)
  {
    if s != [] {
      XorFoldBelow(s[..|s| - 1], k);
      XorBelow(XorFold(s[..|s| - 1]), Ord(s[|s| - 1]), k);
    }
  }

  /** A body of 8-bit characters (all of a frame body is ASCII) has a
      checksum of exactly two hexadecimal digits. */
  lemma ByteBodyChecksumLength(body: string)
    requires forall c :: c in body ==> Ord(c) < 256
    ensures |Checksum(body)| == 2
  {
    assert forall i :: 0 <= i < |body| ==> body[i] in body;
    assert Pow2(8) == 256;
    XorFoldBelow(body, 8);
  }

  /** `hex` writes one digit below 16, two below 256, and more from 256 on. */
  lemma HexLength(n: nat)
    ensures |Hex(n)| <= 2 <==> n < 256
    ensures n < 16 <==> |Hex(n)| == 1
  {
    if n >= 256 {
      assert n / 16 >= 16;
      assert |Hex(n / 16)| >= 2;
    }
  }

  lemma {:induction false} HexDigitValue(d: nat)
    requires d < 16
    ensures DigitValue(HexDigit(d)) == d
    ensures DigitValue(UpperChar(HexDigit(d))) == d
  {
  }

  /** Reading back what `hex` wrote gives the number. */
  lemma {:induction false} HexRoundTrip(n: nat)
    ensures HexValue(Hex(n)) == n
  {
    var r := Hex(n);
    if n < 16 {
      HexDigitValue(n);
      assert r[..0] == [];
    } else {
      HexRoundTrip(n / 16);
      HexDigitValue(n % 16);
      assert r[..|r| - 1] == Hex(n / 16);
    }
  }

  lemma {:induction false} ZerosValue(k: nat)
    ensures HexValue(Zeros(k)) == 0
  {
    if k > 0 {
      assert Zeros(k)[..k - 1] == Zeros(k - 1);
      ZerosValue(k - 1);
    }
  }

  /** Leading zeros do not change the value (what `zfill` relies on). */
  lemma {:induction false} LeadingZerosValue(k: nat, s: string)
    ensures HexValue(Zeros(k) + s) == HexValue(s)
  {
    if s == [] {
      assert Zeros(k) + s == Zeros(k);
      ZerosValue(k);
    } else {
      var z := Zeros(k) + s;
      assert z[..|z| - 1] == Zeros(k) + s[..|s| - 1];
      LeadingZerosValue(k, s[..|s| - 1]);
    }
  }

  /** Upper-casing does not change the value (digits are read in either case). */
  lemma {:induction false} UpperValue(s: string)
    ensures HexValue(Upper(s)) == HexValue(s)
  {
    if s != [] {
      var u := Upper(s);
      assert u[..|u| - 1] == Upper(s[..|s| - 1]);
      UpperValue(s[..|s| - 1]);
    }
  }

  /** The checksum text denotes exactly the XOR fold of the body: the
      rendering loses nothing. */
  lemma ChecksumValue(body: string)
    ensures HexValue(Checksum(body)) == XorFold(body)
  {
    var v := XorFold(body);
    var h := Hex(v);
    var z := ZFill(h, 2);
    assert Checksum(body) == Upper(z);
    HexRoundTrip(v);
    UpperValue(z);
    if |h| < 2 {
      LeadingZerosValue(2 - |h|, h);
    }
    assert HexValue(z) == HexValue(h);
  }
}
