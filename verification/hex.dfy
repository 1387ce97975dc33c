/** Hexadecimal account addresses as text: the validity test for a
    user-supplied sender, its decoding, the text form of an address, and
    Go's case-insensitive comparison of the two. */
module Hex {
  import opened Bytes

  predicate Has0xPrefix(s: string)
  {
    |s| >= 2 && s[0] == '0' && (s[1] == 'x' || s[1] == 'X')
  }

  function StripPrefix(s: string): (h: string)
    ensures Has0xPrefix(s) ==> h == s[2..]
    ensures !Has0xPrefix(s) ==> h == s
  {
    if Has0xPrefix(s) then s[2..] else s
  }

  predicate IsHexChar(c: char)
  {
    ('0' <= c <= '9') || ('a' <= c <= 'f') || ('A' <= c <= 'F')
  }

  /** `common.IsHexAddress`: an optional 0x prefix, then exactly 40 hex digits. */
  predicate IsHexAddress(s: string)
  {
    var h := StripPrefix(s);
    |h| == 2 * AddressLength && forall i :: 0 <= i < |h| ==> IsHexChar(h[i])
  }

  function HexValue(c: char): (v: nat)
    requires IsHexChar(c)
    ensures v < 16
  {
    if '0' <= c <= '9' then (c - '0') as nat
    else if 'a' <= c <= 'f' then (c - 'a') as nat + 10
    else (c - 'A') as nat + 10
  }

  function LowerDigit(v: nat): (c: char)
    requires v < 16
    ensures IsHexChar(c) && HexValue(c) == v
  {
    if v < 10 then '0' + v as char else 'a' + (v - 10) as char
  }

  /** ASCII lower-casing, the part of Unicode case folding that can matter
      when one side of the comparison is hex text. */
  function ToLower(c: char): char
  {
    if 'A' <= c <= 'Z' then c - 'A' + 'a' else c
  }

  /** `strings.EqualFold`, for text compared with an ASCII address string. */
  predicate EqualFold(a: string, b: string)
  {
    |a| == |b| && forall i :: 0 <= i < |a| ==> ToLower(a[i]) == ToLower(b[i])
  }

  /** `common.HexToAddress` on a valid hex address: two digits per byte. */
  function HexToAddress(s: string): (a: Address)
    requires IsHexAddress(s)
  {
    var h := StripPrefix(s);
    seq(AddressLength, j requires 0 <= j < AddressLength => HexValue(h[2 * j]) * 16 + HexValue(h[2 * j + 1]))
  }

  /** The address's digits, two per byte, high nibble first, in lower case. */
  function HexDigits(a: Address): (d: string)
    ensures |d| == 2 * AddressLength
  {
    seq(2 * AddressLength, i requires 0 <= i < 2 * AddressLength =>
      if i % 2 == 0 then LowerDigit(a[i / 2] / 16) else LowerDigit(a[i / 2] % 16))
  }

  /** `Address.String()`: 0x and 40 digits. The source prints the EIP-55
      mixed-case checksum form; every use here goes through `EqualFold`, so
      the lower-case form stands for it. */
  function AddressString(a: Address): (s: string)
    ensures |s| == 42 && Has0xPrefix(s) && IsHexAddress(s)
  {
    "0x" + HexDigits(a)
  }

  lemma LowerDigitOfValue(c: char)
    requires IsHexChar(c)
    ensures LowerDigit(HexValue(c)) == ToLower(c)
  {
  }

  /** Splitting a byte into its two hex digits recovers them; a step of
      `DecodedDigit`. */
  lemma Nibbles(hi: nat, lo: nat)
    requires hi < 16 && lo < 16
    ensures (hi * 16 + lo) / 16 == hi && (hi * 16 + lo) % 16 == lo
  {
  }

  /** Digit k of the decoded address's text is digit k of the sender, in
      lower case. */
  lemma DecodedDigit(s: string, k: nat)
    requires IsHexAddress(s) && Has0xPrefix(s) && k < 2 * AddressLength
    ensures HexDigits(HexToAddress(s))[k] == ToLower(s[2 + k])
  {
    var h := s[2..];
    var a := HexToAddress(s);
    var j := k / 2;
    assert a[j] == HexValue(h[2 * j]) * 16 + HexValue(h[2 * j + 1]);
    Nibbles(HexValue(h[2 * j]), HexValue(h[2 * j + 1]));
    if k % 2 == 0 {
      assert k == 2 * j;
      assert HexDigits(a)[k] == LowerDigit(a[j] / 16);
      LowerDigitOfValue(h[2 * j]);
    } else {
      assert k == 2 * j + 1;
      assert HexDigits(a)[k] == LowerDigit(a[j] % 16);
      LowerDigitOfValue(h[2 * j + 1]);
    }
  }

  /** A sender given with a 0x prefix names the address it decodes to: it
      compares equal, ignoring case, with that address's text. */
  lemma PrefixedSenderMatches(s: string)
    requires IsHexAddress(s) && Has0xPrefix(s)
    ensures EqualFold(s, AddressString(HexToAddress(s)))
  {
    var digits := HexDigits(HexToAddress(s));
    var t := AddressString(HexToAddress(s));
    assert t == "0x" + digits;
    assert |s| == |t| == 2 + 2 * AddressLength;
    forall i | 0 <= i < |s|
      ensures ToLower(s[i]) == ToLower(t[i])
    {
      if i == 0 {
        assert s[0] == '0' == t[0];
      } else if i == 1 {
        assert ToLower(s[1]) == 'x' == t[1];
      } else {
        DecodedDigit(s, i - 2);
        assert t[i] == digits[i - 2];
      }
    }
  }

  /** A sender given without the 0x prefix is valid but never compares equal
      to an address's text: it is two characters short. */
  lemma UnprefixedSenderMismatches(s: string, a: Address)
    requires IsHexAddress(s) && !Has0xPrefix(s)
    ensures !EqualFold(s, AddressString(a))
  {
  }

  /** Decoding an address's text gives the address back. */
  lemma AddressStringRoundTrip(a: Address)
    ensures HexToAddress(AddressString(a)) == a
  {
    var h := HexDigits(a);
    assert StripPrefix(AddressString(a)) == h;
    var b := HexToAddress(AddressString(a));
    forall j | 0 <= j < AddressLength
      ensures b[j] == a[j]
    {
      DigitPair(a, j);
    }
  }

  lemma DigitPair(a: Address, j: nat)
    requires j < AddressLength
    ensures HexValue(HexDigits(a)[2 * j]) * 16 + HexValue(HexDigits(a)[2 * j + 1]) == a[j]
  {
    var h := HexDigits(a);
    assert (2 * j) % 2 == 0 && (2 * j) / 2 == j;
    assert (2 * j + 1) % 2 == 1 && (2 * j + 1) / 2 == j;
    assert h[2 * j] == LowerDigit(a[j] / 16);
    assert h[2 * j + 1] == LowerDigit(a[j] % 16);
  }
}
