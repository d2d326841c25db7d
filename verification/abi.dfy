/**
 * Call data for the token method `transfer(address,uint256)`, in the static-type
 * argument encoding of the Ethereum Contract ABI: a 4-byte method selector
 * followed by one 32-byte big-endian word per argument.
 */
module Abi {
  import opened Wrappers
  import opened GoInts

  type byte = x: int | 0 <= x < 256

  /** Selector of `transfer(address,uint256)`: the hex string a9059cbb. */
  const TransferSelector: seq<byte> := [0xa9, 0x05, 0x9c, 0xbb]

  /** Size of one ABI word. */
  const WordSize: nat := 32

  function Zeros(n: nat): (z: seq<byte>)
    ensures |z| == n && forall i :: 0 <= i < n ==> z[i] == 0
  {
    seq(n, _ => 0)
  }

  /** The unsigned number a big-endian byte string denotes. */
  function FromBigEndian(s: seq<byte>): nat {
    if s == [] then 0 else FromBigEndian(s[..|s| - 1]) * 256 + s[|s| - 1]
  }

  function Pow256(k: nat): (p: nat)
    ensures p >= 1
  {
    if k == 0 then 1 else 256 * Pow256(k - 1)
  }

  /**
   * `common.LeftPadBytes`: zeros in front up to length `l`; a slice that is
   * already `l` bytes or longer is returned as it is, never truncated.
   */
  function LeftPadBytes(s: seq<byte>, l: nat): (r: seq<byte>)
    ensures |r| == if |s| < l then l else |s|
    ensures r[|r| - |s|..] == s
    ensures forall i :: 0 <= i < |r| - |s| ==> r[i] == 0
  {
    if l <= |s| then s else Zeros(l - |s|) + s
  }

  /** Leading zero bytes do not change the number a big-endian string denotes. */
  lemma {:induction false} LeadingZerosIgnored(z: nat, s: seq<byte>)
    ensures FromBigEndian(Zeros(z) + s) == FromBigEndian(s)
    decreases |s|
  {
    if s == [] {
      assert Zeros(z) + s == Zeros(z);
      ZerosDenoteZero(z);
    } else {
      var t := Zeros(z) + s;
      assert t[..|t| - 1] == Zeros(z) + s[..|s| - 1];
      LeadingZerosIgnored(z, s[..|s| - 1]);
    }
  }

  lemma {:induction false} ZerosDenoteZero(z: nat)
    ensures FromBigEndian(Zeros(z)) == 0
    decreases z
  {
    if z > 0 {
      assert Zeros(z)[..z - 1] == Zeros(z - 1);
      ZerosDenoteZero(z - 1);
    }
  }

  /** Padding keeps the value. */
  lemma LeftPadKeepsValue(s: seq<byte>, l: nat)
    ensures FromBigEndian(LeftPadBytes(s, l)) == FromBigEndian(s)
  {
    if |s| < l {
      LeadingZerosIgnored(l - |s|, s);
    }
  }

  /**
   * `big.Int.Bytes()`: the absolute value as a minimal big-endian byte string
   * (zero is the empty string).
   */
  function BigIntBytes(n: nat): (r: seq<byte>)
    ensures FromBigEndian(r) == n
    ensures r == [] || r[0] != 0
    ensures n == 0 <==> r == []
  {
    if n == 0 then []
    else
      var r := BigIntBytes(n / 256) + [n % 256];
      assert r[..|r| - 1] == BigIntBytes(n / 256);
      r
  }

  /** A number below 256^k needs at most k bytes. */
  lemma {:induction false} BigIntBytesLength(n: nat, k: nat)
    requires n < Pow256(k)
    ensures |BigIntBytes(n)| <= k
    decreases k
  {
    if n > 0 {
      assert k > 0;
      assert n / 256 < Pow256(k - 1);
      BigIntBytesLength(n / 256, k - 1);
    }
  }

  lemma Pow256Eight()
    ensures Pow256(8) == 0x1_0000_0000_0000_0000
  {
    assert Pow256(2) == 0x1_0000;
    assert Pow256(4) == 0x1_0000_0000 by { assert Pow256(3) == 0x100_0000; }
    assert Pow256(6) == 0x1_0000_0000_0000 by { assert Pow256(5) == 0x100_0000_0000; }
    assert Pow256(7) == 0x100_0000_0000_0000;
  }

  /** The magnitude of an int64, the number `big.NewInt(amount).Bytes()` encodes. */
  function Magnitude(amount: Int64): (m: nat)
    ensures m < Pow256(8)
    ensures amount >= 0 ==> m == amount
    ensures amount < 0 ==> m == -(amount as int)
  {
    Pow256Eight();
    if amount < 0 then -(amount as int) else amount
  }

  /** The magnitude of any int64 fits in 8 bytes, so padding to a word never keeps extra bytes. */
  lemma AmountFitsWord(amount: Int64)
    ensures |BigIntBytes(Magnitude(amount))| <= 8
  {
    BigIntBytesLength(Magnitude(amount), 8);
  }

  /**
   * The call data `processTransferParameter` builds from the decoded destination
   * address `addr` (version byte first) and the amount.
   */
  function TransferCallData(addr: seq<byte>, amount: Int64): (data: seq<byte>)
    requires |addr| >= 1
    ensures |data| == 4 + (if |addr| - 1 < WordSize then WordSize else |addr| - 1) + WordSize
    ensures data[..4] == TransferSelector
    ensures |addr| <= 33 ==> |data| == 68
  {
    AmountFitsWord(amount);
    TransferSelector + LeftPadBytes(addr[1..], WordSize) + LeftPadBytes(BigIntBytes(Magnitude(amount)), WordSize)
  }

  /** The two arguments of a `transfer(address,uint256)` call. */
  datatype TransferArgs = TransferArgs(to: seq<byte>, value: nat)

  /** Reads back well-formed `transfer(address,uint256)` call data: selector and two words. */
  function DecodeTransfer(data: seq<byte>): (r: Option<TransferArgs>)
    ensures r.Some? ==> |r.value.to| == WordSize && r.value.value < Pow256(WordSize)
  {
    if |data| == 4 + 2 * WordSize && data[..4] == TransferSelector then
      BigEndianBound(data[36..68]);
      Some(TransferArgs(data[4..36], FromBigEndian(data[36..68])))
    else None
  }

  lemma {:induction false} BigEndianBound(s: seq<byte>)
    ensures FromBigEndian(s) < Pow256(|s|)
    decreases |s|
  {
    if s != [] {
      BigEndianBound(s[..|s| - 1]);
    }
  }

  /**
   * Round trip: for a destination of at most 33 decoded bytes, decoding the
   * call data gives the address without its version byte, zero-padded to a word,
   * and the amount (its magnitude when negative).
   */
  lemma TransferCallDataRoundTrip(addr: seq<byte>, amount: Int64)
    requires 1 <= |addr| <= 33
    ensures DecodeTransfer(TransferCallData(addr, amount))
         == Some(TransferArgs(Zeros(33 - |addr|) + addr[1..], Magnitude(amount)))
    ensures amount >= 0 ==> DecodeTransfer(TransferCallData(addr, amount)).value.value == amount
  {
    var a := LeftPadBytes(addr[1..], WordSize);
    var v := LeftPadBytes(BigIntBytes(Magnitude(amount)), WordSize);
    AmountFitsWord(amount);
    assert TransferCallData(addr, amount) == TransferSelector + a + v;
    assert a == Zeros(33 - |addr|) + addr[1..];
    LeftPadKeepsValue(BigIntBytes(Magnitude(amount)), WordSize);
    DecodeWords(a, v);
  }

  /** Call data made of the selector and two words decodes to those two words. */
  lemma DecodeWords(a: seq<byte>, v: seq<byte>)
    requires |a| == WordSize && |v| == WordSize
    ensures DecodeTransfer(TransferSelector + a + v) == Some(TransferArgs(a, FromBigEndian(v)))
  {
    var data := TransferSelector + a + v;
    assert data[..4] == TransferSelector;
    assert data[4..36] == a;
    assert data[36..68] == v;
  }

  /**
   * `big.Int.Bytes()` drops the sign: a negative amount produces the same call
   * data as its magnitude, i.e. a transfer of that positive amount.
   */
  lemma NegativeAmountEncodesMagnitude(addr: seq<byte>, amount: Int64)
    requires |addr| >= 1 && -0x8000_0000_0000_0000 < amount < 0
    ensures TransferCallData(addr, amount) == TransferCallData(addr, -(amount as int) as Int64)
  {
  }
}
