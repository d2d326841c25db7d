/**
 * The common tail of `transfer` and `transferContract` (pkg/client/rpc/grpc.go):
 * given the node's reply to the create call, check the transaction skeleton,
 * optionally overwrite its fee limit, sign it, broadcast it (taking a fresh API
 * key for that call) and decide the returned `(txid, err)`.
 */
module Submission {
  import opened Wrappers
  import opened GoInts
  import opened Abi
  import opened Tron
  import Rotation

  /** `len(tx.GetRawData().GetContract())`, with the nil-safe getters of the generated code. */
  function ContractCount(tx: Option<Transaction>): nat {
    if tx.Some? && tx.value.rawData.Some? then |tx.value.rawData.value.contract| else 0
  }

  /** The skeleton check: a transaction with at least one contract entry. */
  predicate ValidSkeleton(tx: Option<Transaction>) {
    ContractCount(tx) > 0
  }

  /** `if feeLimit > 0 { tx.RawData.FeeLimit = feeLimit }`. */
  function ApplyFeeLimit(tx: Transaction, feeLimit: Int64): (r: Transaction)
    requires tx.rawData.Some?
    ensures r.rawData.Some? && r.signature == tx.signature
    ensures r.rawData.value.contract == tx.rawData.value.contract
    ensures feeLimit > 0 ==> r.rawData.value.feeLimit == feeLimit
    ensures feeLimit <= 0 ==> r == tx
  {
    if feeLimit > 0 then tx.(rawData := Some(tx.rawData.value.(feeLimit := feeLimit))) else tx
  }

  /** The transaction handed to the signer, when the skeleton passes the check. */
  function Prepared(created: Result<TransactionExtention, Error>, feeLimit: Int64): (p: Option<Transaction>)
    ensures p.Some? <==> created.Success? && ValidSkeleton(created.value.transaction)
  {
    if created.Success? && ValidSkeleton(created.value.transaction) then
      Some(ApplyFeeLimit(created.value.transaction.value, feeLimit))
    else None
  }

  /** The `(txid, err)` pair a transfer returns. */
  datatype Outcome = Outcome(txid: string, err: Option<Error>)

  /** The outcome and the shared API-key cursor after the call. */
  datatype Submitted = Submitted(outcome: Outcome, cursor: nat)

  /** True when every step succeeds and the node accepts the broadcast. */
  predicate Accepted(keys: seq<string>, cursor: nat, created: Result<TransactionExtention, Error>,
                     feeLimit: Int64, sign: Transaction -> Result<Signed, Error>,
                     broadcast: (string, Transaction) -> Result<Return, Error>)
    requires |keys| > 0
  {
    var p := Prepared(created, feeLimit);
    && p.Some?
    && sign(p.value).Success?
    && var reply := broadcast(keys[Rotation.Clamp(cursor, |keys|)], WithSignature(p.value, sign(p.value).value.signature));
       reply.Success? && reply.value.result
  }

  /**
   * Steps after the create call. `cursor` is the API-key cursor after the create
   * call took its key; the broadcast takes the next one.
   */
  function Submit(keys: seq<string>, cursor: nat, created: Result<TransactionExtention, Error>,
                  feeLimit: Int64, sign: Transaction -> Result<Signed, Error>,
                  broadcast: (string, Transaction) -> Result<Return, Error>): (s: Submitted)
    requires |keys| > 0
    // success and a non-empty txid go together; every error carries ""
    ensures s.outcome.err.None? <==> s.outcome.txid != ""
    ensures s.outcome.err.None? <==> Accepted(keys, cursor, created, feeLimit, sign, broadcast)
    // on success the txid is the hex of the hash of the transaction as prepared
    ensures s.outcome.err.None? ==>
              s.outcome.txid == HexEncode(sign(Prepared(created, feeLimit).value).value.hash)
    // a failed create or a bad skeleton is reported without signing and without another key
    ensures created.Failure? ==> s == Submitted(Outcome("", Some(created.error)), cursor)
    ensures created.Success? && !ValidSkeleton(created.value.transaction) ==>
              s == Submitted(Outcome("", Some(InvalidTransaction)), cursor)
    // a signing failure is reported with the signer's error, before any further key is taken
    ensures var p := Prepared(created, feeLimit);
            p.Some? && sign(p.value).Failure? ==> s == Submitted(Outcome("", Some(sign(p.value).error)), cursor)
    // after a signature the signed transaction is broadcast; a transport error is returned as
    // it is, a refusal as `Rejected` carrying the node's reply
    ensures var p := Prepared(created, feeLimit);
            p.Some? && sign(p.value).Success? ==>
              var reply := broadcast(keys[Rotation.Clamp(cursor, |keys|)], WithSignature(p.value, sign(p.value).value.signature));
              && (reply.Failure? ==> s.outcome == Outcome("", Some(reply.error)))
              && (reply.Success? && !reply.value.result ==> s.outcome == Outcome("", Some(Rejected(reply.value))))
    // the broadcast, reached only after a successful signature, takes exactly one more key
    ensures s.cursor == if Prepared(created, feeLimit).Some? && sign(Prepared(created, feeLimit).value).Success?
                        then Rotation.Next(cursor, |keys|) else cursor
  {
    match Prepared(created, feeLimit)
    case None =>
      if created.Failure? then Submitted(Outcome("", Some(created.error)), cursor)
      else Submitted(Outcome("", Some(InvalidTransaction)), cursor)
    case Some(tx) =>
      match sign(tx)
      case Failure(e) => Submitted(Outcome("", Some(e)), cursor)
      case Success(signed) =>
        var txid := HexEncode(signed.hash);
        var key := keys[Rotation.Clamp(cursor, |keys|)];
        var next := Rotation.Next(cursor, |keys|);
        match broadcast(key, WithSignature(tx, signed.signature))
        case Failure(e) => Submitted(Outcome("", Some(e)), next)
        case Success(reply) =>
          if !reply.result then Submitted(Outcome("", Some(Rejected(reply))), next)
          else Submitted(Outcome(txid, None), next)
  }

  /**
   * A broadcast that fails or is refused discards the txid already computed:
   * the caller gets "" and the error, never the identifier.
   */
  lemma BroadcastFailureDropsTxid(keys: seq<string>, cursor: nat, created: Result<TransactionExtention, Error>,
                                  feeLimit: Int64, sign: Transaction -> Result<Signed, Error>,
                                  broadcast: (string, Transaction) -> Result<Return, Error>)
    requires |keys| > 0
    requires Prepared(created, feeLimit).Some? && sign(Prepared(created, feeLimit).value).Success?
    requires var p := Prepared(created, feeLimit).value;
             var reply := broadcast(keys[Rotation.Clamp(cursor, |keys|)], WithSignature(p, sign(p).value.signature));
             reply.Failure? || !reply.value.result
    ensures Submit(keys, cursor, created, feeLimit, sign, broadcast).outcome.txid == ""
    ensures Submit(keys, cursor, created, feeLimit, sign, broadcast).outcome.err.Some?
  {
  }

  /**
   * What the node is given: the transaction the signer signed (its fee limit
   * applied) with the signature appended; fee limit and contract entries are
   * the node's own except for a positive fee-limit argument.
   */
  lemma FeeLimitIsBroadcast(created: Result<TransactionExtention, Error>, feeLimit: Int64, signature: seq<byte>)
    requires created.Success? && ValidSkeleton(created.value.transaction)
    ensures var skeleton := created.value.transaction.value;
            var sent := WithSignature(Prepared(created, feeLimit).value, signature);
            && sent.rawData.value.feeLimit == (if feeLimit > 0 then feeLimit else skeleton.rawData.value.feeLimit)
            && sent.rawData.value.contract == skeleton.rawData.value.contract
            && sent.signature == skeleton.signature + [signature]
  {
  }

  /** With an invalid skeleton neither the signer nor the broadcaster influences the outcome. */
  lemma InvalidSkeletonNeverSigned(keys: seq<string>, cursor: nat, created: Result<TransactionExtention, Error>,
                                   feeLimit: Int64,
                                   sign1: Transaction -> Result<Signed, Error>, sign2: Transaction -> Result<Signed, Error>,
                                   broadcast1: (string, Transaction) -> Result<Return, Error>,
                                   broadcast2: (string, Transaction) -> Result<Return, Error>)
    requires |keys| > 0
    requires created.Failure? || !ValidSkeleton(created.value.transaction)
    ensures Submit(keys, cursor, created, feeLimit, sign1, broadcast1)
         == Submit(keys, cursor, created, feeLimit, sign2, broadcast2)
  {
  }
}
