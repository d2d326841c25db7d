/**
 * The values the TRON client exchanges with a wallet node, and the
 * collaborators it cannot see into: the node's remote calls, the signer and the
 * checksummed base-58 address decoder. Each collaborator is a function given
 * to the model, so its behaviour is whatever the caller supplies.
 */
module Tron {
  import opened Wrappers
  import opened GoInts
  import opened Abi

  /** A native transfer request (`core.TransferContract`). */
  datatype TransferContract = TransferContract(ownerAddress: seq<byte>, toAddress: seq<byte>, amount: Int64)

  /** A smart-contract call request (`core.TriggerSmartContract`). */
  datatype TriggerSmartContract = TriggerSmartContract(ownerAddress: seq<byte>, contractAddress: seq<byte>, data: seq<byte>)

  /** The raw part of a transaction: its contract entries (serialised) and its fee limit in sun. */
  datatype RawData = RawData(contract: seq<seq<byte>>, feeLimit: Int64)

  /** A transaction; `rawData` is a pointer that the node may leave nil. */
  datatype Transaction = Transaction(rawData: Option<RawData>, signature: seq<seq<byte>>)

  /** The node's reply to a create call; `transaction` may be nil. */
  datatype TransactionExtention = TransactionExtention(transaction: Option<Transaction>)

  /** The node's reply to a broadcast. */
  datatype Return = Return(result: bool, message: string)

  /** Every error the transfer pipeline can return. */
  datatype Error =
    | Remote(message: string)        // an error from a remote call (transport, deadline, node)
    | InvalidTransaction             // "transfer error: invalid transaction"
    | Signing(message: string)       // an error from the signer
    | Rejected(ret: Return)          // "api get false the msg: ..."

  /**
   * What the signer produces: the hash of the raw data it signed and the
   * signature it appends to the transaction (see `WithSignature`).
   */
  datatype Signed = Signed(hash: seq<byte>, signature: seq<byte>)

  /**
   * The transaction after the signer has appended `signature` to it in place:
   * the raw data, fee limit included, is what was signed.
   */
  function WithSignature(tx: Transaction, signature: seq<byte>): (r: Transaction)
    ensures r.rawData == tx.rawData
    ensures |r.signature| == |tx.signature| + 1 && r.signature[..|tx.signature|] == tx.signature
    ensures r.signature[|tx.signature|] == signature
  {
    tx.(signature := tx.signature + [signature])
  }

  /**
   * The caller's private key, seen through what the client does with it: the
   * owner address derived from its public key, and signing.
   */
  datatype PrivateKey = PrivateKey(ownerAddress: seq<byte>, sign: Transaction -> Result<Signed, Error>)

  /**
   * The remote calls of `api.WalletClient` the client uses. The first argument
   * is the API key sent in the call's metadata.
   */
  datatype WalletClient = WalletClient(
    createTransaction2: (string, TransferContract) -> Result<TransactionExtention, Error>,
    triggerConstantContract: (string, TriggerSmartContract) -> Result<TransactionExtention, Error>,
    broadcastTransaction: (string, Transaction) -> Result<Return, Error>)

  /** `base58.DecodeCheck`: the decoded bytes, or `None` on a malformed or mis-checksummed address. */
  type Base58Check = string -> Option<seq<byte>>

  /** The bytes the client keeps from a decode whose error it ignores: nil on failure. */
  function DecodedOrNil(decodeCheck: Base58Check, s: string): (b: seq<byte>)
    ensures decodeCheck(s).None? ==> b == []
    ensures decodeCheck(s).Some? ==> b == decodeCheck(s).value
  {
    match decodeCheck(s)
    case Some(b) => b
    case None => []
  }

  /** Lower-case hexadecimal digit of a nibble. */
  function HexDigit(n: nat): (c: char)
    requires n < 16
    ensures c in "0123456789abcdef"
  {
    "0123456789abcdef"[n]
  }

  /** `hexutil.Encode`: "0x" followed by two lower-case hex digits per byte. */
  function HexEncode(b: seq<byte>): (s: string)
    ensures |s| == 2 + 2 * |b|
    ensures s[..2] == "0x"
  {
    if b == [] then "0x"
    else
      var last := b[|b| - 1];
      HexEncode(b[..|b| - 1]) + [HexDigit(last / 16), HexDigit(last % 16)]
  }

  /** After the prefix, byte `i` is spelled by the hex digits of its high and low nibbles. */
  lemma {:induction false} HexEncodeDigits(b: seq<byte>)
    ensures forall i :: 0 <= i < |b| ==>
              HexEncode(b)[2 + 2 * i] == HexDigit(b[i] / 16) && HexEncode(b)[3 + 2 * i] == HexDigit(b[i] % 16)
    decreases |b|
  {
    if b != [] {
      var init, last := b[..|b| - 1], b[|b| - 1];
      HexEncodeDigits(init);
      var s := HexEncode(b);
      assert s == HexEncode(init) + [HexDigit(last / 16), HexDigit(last % 16)];
      forall i | 0 <= i < |b|
        ensures s[2 + 2 * i] == HexDigit(b[i] / 16) && s[3 + 2 * i] == HexDigit(b[i] % 16)
      {
        if i < |b| - 1 {
          assert b[i] == init[i];
        }
      }
    }
  }

  /** Different hashes give different transaction ids. */
  lemma {:induction false} HexEncodeInjective(a: seq<byte>, b: seq<byte>)
    requires HexEncode(a) == HexEncode(b)
    ensures a == b
    decreases |a|
  {
    if a != [] {
      var sa, sb := HexEncode(a), HexEncode(b);
      assert |b| == |a|;
      var n := |sa|;
      assert sa[..n - 2] == HexEncode(a[..|a| - 1]);
      assert sb[..n - 2] == HexEncode(b[..|b| - 1]);
      HexEncodeInjective(a[..|a| - 1], b[..|b| - 1]);
      var x, y := a[|a| - 1], b[|b| - 1];
      assert HexDigit(x / 16) == sa[n - 2] == sb[n - 2] == HexDigit(y / 16);
      assert HexDigit(x % 16) == sa[n - 1] == sb[n - 1] == HexDigit(y % 16);
      HexDigitInjective(x / 16, y / 16);
      HexDigitInjective(x % 16, y % 16);
      assert a == a[..|a| - 1] + [x];
      assert b == b[..|b| - 1] + [y];
    }
  }

  lemma HexDigitInjective(m: nat, n: nat)
    requires m < 16 && n < 16 && HexDigit(m) == HexDigit(n)
    ensures m == n
  {
  }
}
