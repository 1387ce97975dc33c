/** The fixed-word contract-call encoding: a 4-byte function selector
    followed by arguments left-padded to 32-byte words, and the decoders that
    read one 32-byte word out of a call result. */
module Abi {
  import opened Bytes

  const WordSize: nat := 32

  type Selector = s: Bytes | |s| == 4 witness [0, 0, 0, 0]

  /** `totalSupply()`, 0x18160ddd */
  const TotalSupplySelector: Selector := [0x18, 0x16, 0x0d, 0xdd]
  /** `balanceOf(address)`, 0x70a08231 */
  const BalanceOfSelector: Selector := [0x70, 0xa0, 0x82, 0x31]
  /** `tokenAddress()`, 0x9d76ea58 */
  const TokenAddressSelector: Selector := [0x9d, 0x76, 0xea, 0x58]
  /** `factoryAddress()`, 0x966dae0e */
  const FactoryAddressSelector: Selector := [0x96, 0x6d, 0xae, 0x0e]
  /** `name()`, 0x06fdde03 */
  const NameSelector: Selector := [0x06, 0xfd, 0xde, 0x03]
  /** `symbol()`, 0x95d89b41 */
  const SymbolSelector: Selector := [0x95, 0xd8, 0x9b, 0x41]
  /** `decimals()`, 0x313ce567 */
  const DecimalsSelector: Selector := [0x31, 0x3c, 0xe5, 0x67]
  /** `transfer(address,uint256)`, 0xa9059cbb */
  const TransferSelector: Selector := [0xa9, 0x05, 0x9c, 0xbb]

  /** The words after the first slice: each argument left-padded to 32 bytes. */
  function PaddedWords(args: seq<Bytes>): Bytes
  {
    if args == [] then [] else LeftPad(args[0], WordSize) + PaddedWords(args[1..])
  }

  /** `packBytes`: no slices give nil (the empty slice here); otherwise the
      first slice verbatim, then every later slice left-padded to a word. */
  function PackBytes(slices: seq<Bytes>): (r: Bytes)
    ensures slices == [] ==> r == []
    ensures slices != [] ==> |r| >= |slices[0]| && r[..|slices[0]|] == slices[0]
  {
    if slices == [] then [] else slices[0] + PaddedWords(slices[1..])
  }

  /** Every argument of at most one word takes exactly one word. */
  lemma {:induction false} PaddedWordsLength(args: seq<Bytes>)
    requires forall i :: 0 <= i < |args| ==> |args[i]| <= WordSize
    ensures |PaddedWords(args)| == WordSize * |args|
  {
    if args != [] {
      PaddedWordsLength(args[1..]);
    }
  }

  /** With arguments of at most 32 bytes, word i (after the first slice) is
      argument i right-aligned behind zeros. */
  lemma {:induction false} PaddedWordAt(args: seq<Bytes>, i: nat)
    requires forall j :: 0 <= j < |args| ==> |args[j]| <= WordSize
    requires i < |args|
    ensures |PaddedWords(args)| == WordSize * |args|
    ensures PaddedWords(args)[WordSize * i..WordSize * (i + 1)] == LeftPad(args[i], WordSize)
  {
    PaddedWordsLength(args);
    if i > 0 {
      PaddedWordAt(args[1..], i - 1);
      PaddedWordsLength(args[1..]);
      var w := LeftPad(args[0], WordSize);
      assert PaddedWords(args) == w + PaddedWords(args[1..]);
      assert PaddedWords(args)[WordSize * i..WordSize * (i + 1)]
          == PaddedWords(args[1..])[WordSize * (i - 1)..WordSize * i];
    }
  }

  /** The length of a packed call: len(first) + 32 * (k - 1) for k slices of
      which the later ones are at most one word each. */
  lemma PackBytesLength(slices: seq<Bytes>)
    requires slices != []
    requires forall i :: 1 <= i < |slices| ==> |slices[i]| <= WordSize
    ensures |PackBytes(slices)| == |slices[0]| + WordSize * (|slices| - 1)
  {
    PaddedWordsLength(slices[1..]);
  }

  /** The call data of `balanceOf(account)`. */
  function BalanceOfCall(account: Address): (data: Bytes)
    ensures |data| == 36
    ensures data[..4] == BalanceOfSelector
    ensures forall i :: 4 <= i < 16 ==> data[i] == 0
    ensures data[16..] == account
  {
    var d := PackBytes([BalanceOfSelector, account]);
    PaddedWordAt([account], 0);
    assert d == BalanceOfSelector + LeftPad(account, WordSize);
    d
  }

  /** `common.GetData`: `size` bytes from `start`, cut at the end of the data
      and right-padded with zeros. */
  function GetData(data: Bytes, start: nat, size: nat): (r: Bytes)
    ensures |r| == size
    ensures start + size <= |data| ==> r == data[start..start + size]
    ensures forall i :: 0 <= i < size ==> r[i] == if start + i < |data| then data[start + i] else 0
  {
    var s := if start > |data| then |data| else start;
    var e := if s + size > |data| then |data| else s + size;
    var r := RightPad(data[s..e], size);
    assert forall i :: 0 <= i < e - s ==> r[i] == data[s..e][i];
    r
  }

  /** `common.GetBigInt(res, 0, 32)`: the number held in word 0. */
  function WordValue(res: Bytes): nat
  {
    ToNat(GetData(res, 0, WordSize))
  }

  /** `BytesToAddress(GetData(res, 0, 32))`: the address held in word 0. */
  function WordAddress(res: Bytes): (a: Address)
    ensures a == GetData(res, 0, WordSize)[12..]
    ensures |res| >= WordSize ==> a == res[12..WordSize]
  {
    BytesToAddress(GetData(res, 0, WordSize))
  }

  /** `uint8(GetBigInt(res, 0, 32).Uint64())`: truncated to 64 bits, then to 8. */
  function WordUint8(res: Bytes): (d: uint8)
    ensures d == GetData(res, 0, WordSize)[WordSize - 1]
  {
    var w := GetData(res, 0, WordSize);
    var v := ToNat(w);
    LowByteOfTruncation(v);
    LowByte(w);
    (v % 0x1_0000_0000_0000_0000) % 256
  }

  /** Truncating to 64 bits keeps the low byte; a step of `WordUint8`. */
  lemma LowByteOfTruncation(v: nat)
    ensures (v % 0x1_0000_0000_0000_0000) % 256 == v % 256
  {
    var q := v / 0x1_0000_0000_0000_0000;
    var m := v % 0x1_0000_0000_0000_0000;
    assert v == q * 0x1_0000_0000_0000_0000 + m;
    assert q * 0x1_0000_0000_0000_0000 == (q * 0x100_0000_0000_0000) * 256;
  }

  /** `account.Hash().Bytes()`: the address right-aligned in 32 bytes. */
  function AddressWord(account: Address): (w: Bytes)
    ensures |w| == WordSize && w[12..] == account
    ensures forall i :: 0 <= i < 12 ==> w[i] == 0
  {
    LeftPad(account, WordSize)
  }

  /** A reward below 2^256 survives the padding and the 32-byte copy. */
  lemma AmountWordValue(reward: nat)
    ensures |LeftPad(MinimalBytes(reward), WordSize)| >= WordSize
    ensures reward < Pow256(WordSize) ==>
              ToNat(LeftPad(MinimalBytes(reward), WordSize)[..WordSize]) == reward
  {
    var m := MinimalBytes(reward);
    var w := LeftPad(m, WordSize);
    if reward < Pow256(WordSize) {
      MinimalBytesValue(reward, WordSize);
      assert |m| <= WordSize;
      assert |w| == WordSize;
      assert w[..WordSize] == w;
      LeftPadValue(m, WordSize);
    }
  }

  /** The 68-byte payload of `transfer(account, reward)`: the selector, the
      recipient's word, and `copy` of the left-padded reward into the last
      32 bytes (a reward of more than 32 bytes keeps only its first 32). */
  function TransferPayload(account: Address, reward: nat): (data: Bytes)
    ensures |data| == 68
    ensures data[..4] == TransferSelector
    ensures data[4..36] == AddressWord(account)
    ensures reward < Pow256(WordSize) ==> ToNat(data[36..]) == reward
  {
    var amount := LeftPad(MinimalBytes(reward), WordSize)[..WordSize];
    AmountWordValue(reward);
    var d := TransferSelector + AddressWord(account) + amount;
    assert d[36..] == amount;
    d
  }
}
