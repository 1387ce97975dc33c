/** Byte strings, big-endian numbers and 20-byte account addresses. */
module Bytes {

  type uint8 = x: int | 0 <= x < 256

  type uint64 = x: int | 0 <= x < 0x1_0000_0000_0000_0000

  type Bytes = seq<uint8>

  const AddressLength: nat := 20

  type Address = a: Bytes | |a| == AddressLength witness seq(20, _ => 0)

  const ZeroAddress: Address := seq(20, _ => 0)

  function Zeros(n: nat): (z: Bytes)
    ensures |z| == n && forall i :: 0 <= i < n ==> z[i] == 0
  {
    seq(n, _ => 0)
  }

  /** The unsigned big-endian number a byte string spells. */
  function ToNat(s: Bytes): nat
  {
    if s == [] then 0 else ToNat(s[..|s| - 1]) * 256 + s[|s| - 1]
  }

  /** `common.LeftPadBytes`: zeros in front up to length `l`; a slice that is
      already at least `l` long comes back unchanged. */
  function LeftPad(b: Bytes, l: nat): (r: Bytes)
    ensures |b| >= l ==> r == b
    ensures |b| < l ==> |r| == l && r[l - |b|..] == b
    ensures |b| < l ==> forall i :: 0 <= i < l - |b| ==> r[i] == 0
  {
    if |b| >= l then b else Zeros(l - |b|) + b
  }

  /** `common.RightPadBytes`: zeros behind up to length `l`. */
  function RightPad(b: Bytes, l: nat): (r: Bytes)
    ensures |b| >= l ==> r == b
    ensures |b| < l ==> |r| == l && r[..|b|] == b
    ensures |b| < l ==> forall i :: |b| <= i < l ==> r[i] == 0
  {
    if |b| >= l then b else b + Zeros(l - |b|)
  }

  /** `big.Int.Bytes()`: the big-endian magnitude without leading zero bytes
      (zero is the empty slice). */
  function MinimalBytes(n: nat): (r: Bytes)
    decreases n
  {
    if n == 0 then [] else MinimalBytes(n / 256) + [n % 256]
  }

  /** `common.BytesToAddress`: the last 20 bytes, or the bytes left-padded to 20. */
  function BytesToAddress(b: Bytes): (a: Address)
    ensures |b| >= AddressLength ==> a == b[|b| - AddressLength..]
    ensures |b| < AddressLength ==> a == LeftPad(b, AddressLength)
  {
    if |b| > AddressLength then b[|b| - AddressLength..] else LeftPad(b, AddressLength)
  }

  /** Leading zero bytes do not change the number. */
  lemma {:induction false} ToNatZerosPrefix(n: nat, b: Bytes)
    ensures ToNat(Zeros(n) + b) == ToNat(b)
    decreases |b|
  {
    if b == [] {
      ZerosValue(n);
      assert Zeros(n) + b == Zeros(n);
    } else {
      var s := Zeros(n) + b;
      assert s[..|s| - 1] == Zeros(n) + b[..|b| - 1];
      ToNatZerosPrefix(n, b[..|b| - 1]);
    }
  }

  lemma {:induction false} ZerosValue(n: nat)
    ensures ToNat(Zeros(n)) == 0
  {
    if n > 0 {
      assert Zeros(n)[..n - 1] == Zeros(n - 1);
      ZerosValue(n - 1);
    }
  }

  /** Left padding keeps the value a word encodes. */
  lemma LeftPadValue(b: Bytes, l: nat)
    ensures ToNat(LeftPad(b, l)) == ToNat(b)
  {
    if |b| < l { ToNatZerosPrefix(l - |b|, b); }
  }

  /** The value of a string is below 256 to the power of its length. */
  lemma {:induction false} ToNatBound(s: Bytes)
    ensures ToNat(s) < Pow256(|s|)
  {
    if s != [] {
      ToNatBound(s[..|s| - 1]);
    }
  }

  function Pow256(k: nat): (p: nat)
    ensures p >= 1
  {
    if k == 0 then 1 else 256 * Pow256(k - 1)
  }

  /** `big.Int.Bytes()` spells its number back, in at most k bytes when the
      number is below 256^k. */
  lemma {:induction false} MinimalBytesValue(n: nat, k: nat)
    requires n < Pow256(k)
    ensures ToNat(MinimalBytes(n)) == n && |MinimalBytes(n)| <= k
    decreases n
  {
    if n != 0 {
      var s := MinimalBytes(n);
      assert s[..|s| - 1] == MinimalBytes(n / 256);
      MinimalBytesValue(n / 256, k - 1);
    }
  }

  /** The low byte of a big-endian number is its last byte; a step of
      `Abi.WordUint8`. */
  lemma LowByte(s: Bytes)
    requires s != []
    ensures ToNat(s) % 256 == s[|s| - 1]
  {
  }
}
