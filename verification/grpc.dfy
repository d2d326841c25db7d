/**
 * pkg/client/rpc/grpc.go: the gRPC side of the TRON client. The package-level
 * variables (the API-key cursor and the contract registry) are the fields of
 * `RpcPackage`; every `Rpc` value shares one of them, as every `*Rpc` in Go
 * shares the package's variables. Each remote call takes one API key for its
 * metadata, so the cursor advances once per remote call.
 */
module Rpc {
  import opened Wrappers
  import opened GoInts
  import opened Abi
  import opened Contracts
  import opened Tron
  import opened Submission
  import opened Rotation

  /** The fee limit, in sun, that token transfers authorise. */
  const FeeLimit: Int64 := 40000000

  /** The package-level state of pkg/client/rpc: `curIndex` and `mapContract`. */
  class RpcPackage {
    var curIndex: nat
    var mapContract: Registry

    constructor ()
      ensures curIndex == 0 && mapContract == map[]
    {
      curIndex := 0;
      mapContract := map[];
    }

    /** `SetContractMap`: replaces the whole registry. */
    method SetContractMap(contractMap: Registry)
      modifies this`mapContract
      ensures mapContract == contractMap
    {
      mapContract := contractMap;
    }
  }

  /** The outcome of `transfer`, from the cursor before its first remote call. */
  function TransferResult(keys: seq<string>, cursor: nat, ownerKey: PrivateKey, to: seq<byte>,
                          amount: Int64, wallet: WalletClient): Submitted
    requires |keys| > 0
  {
    var request := Tron.TransferContract(ownerKey.ownerAddress, to, amount);
    var created := wallet.createTransaction2(keys[Clamp(cursor, |keys|)], request);
    Submit(keys, Next(cursor, |keys|), created, 0, ownerKey.sign, wallet.broadcastTransaction)
  }

  /** The outcome of `transferContract`, from the cursor before its first remote call. */
  function TransferContractResult(keys: seq<string>, cursor: nat, ownerKey: PrivateKey, contract: seq<byte>,
                                  data: seq<byte>, feeLimit: Int64, wallet: WalletClient): Submitted
    requires |keys| > 0
  {
    var request := TriggerSmartContract(ownerKey.ownerAddress, contract, data);
    var created := wallet.triggerConstantContract(keys[Clamp(cursor, |keys|)], request);
    Submit(keys, Next(cursor, |keys|), created, feeLimit, ownerKey.sign, wallet.broadcastTransaction)
  }

  /**
   * What `Sen` demands so that it does not panic: the trx and trc20 routes take
   * API keys, so the key list must be non-empty there, and a trc20 destination
   * must decode to at least one byte. The other routes demand nothing.
   */
  predicate SenDefined(reg: Registry, keys: seq<string>, contract: string, to: string, decodeCheck: Base58Check) {
    && (ChargeContract(reg, contract).kind == Trx || ChargeContract(reg, contract).kind == "trc20" ==> |keys| > 0)
    && (ChargeContract(reg, contract).kind == "trc20" ==> |DecodedOrNil(decodeCheck, to)| >= 1)
  }

  /**
   * The outcome of `Sen`. `baseUnits(d)` is the amount the caller asked for,
   * scaled by 10^d and converted to int64.
   */
  function SenResult(reg: Registry, keys: seq<string>, cursor: nat, key: PrivateKey, contract: string, to: string,
                     baseUnits: Int32 -> Int64, wallet: WalletClient, decodeCheck: Base58Check): Submitted
    requires SenDefined(reg, keys, contract, to, decodeCheck)
  {
    var charge := ChargeContract(reg, contract);
    if charge.kind == Trx then
      TransferResult(keys, cursor, key, DecodedOrNil(decodeCheck, to), baseUnits(charge.decimals), wallet)
    else if charge.kind == "trc20" then
      var data := TransferCallData(DecodedOrNil(decodeCheck, to), baseUnits(charge.decimals));
      TransferContractResult(keys, cursor, key, DecodedOrNil(decodeCheck, contract), data, FeeLimit, wallet)
    else
      Submitted(Outcome("", None), cursor)
  }

  /** An `Rpc` client: its API keys and the package state it shares. */
  class Rpc {
    const apiKeys: seq<string>
    const pkg: RpcPackage

    /** `NewRpc`. */
    constructor (apiKeys: seq<string>, pkg: RpcPackage)
      ensures this.apiKeys == apiKeys && this.pkg == pkg
    {
      this.apiKeys := apiKeys;
      this.pkg := pkg;
    }

    /** `getApiKey`: one atomic step of the round-robin rotation over `apiKeys`. */
    method GetApiKey() returns (key: string)
      requires |apiKeys| > 0
      modifies pkg`curIndex
      ensures key == apiKeys[Clamp(old(pkg.curIndex), |apiKeys|)]
      ensures pkg.curIndex == Next(old(pkg.curIndex), |apiKeys|) && pkg.curIndex < |apiKeys|
    {
      var lens := |apiKeys|;
      if pkg.curIndex >= lens {
        pkg.curIndex := 0;
      }
      key := apiKeys[pkg.curIndex];
      pkg.curIndex := (pkg.curIndex + 1) % lens;
    }

    /** `transfer`: a native transfer of `amount` sun to `toAddress`. */
    method Transfer(ownerKey: PrivateKey, toAddress: string, amount: Int64, wallet: WalletClient,
                    decodeCheck: Base58Check) returns (txid: string, err: Option<Error>)
      requires |apiKeys| > 0
      modifies pkg`curIndex
      ensures Submitted(Outcome(txid, err), pkg.curIndex)
           == TransferResult(apiKeys, old(pkg.curIndex), ownerKey, DecodedOrNil(decodeCheck, toAddress), amount, wallet)
    {
      var request := Tron.TransferContract(ownerKey.ownerAddress, DecodedOrNil(decodeCheck, toAddress), amount);
      var createKey := GetApiKey();
      var created := wallet.createTransaction2(createKey, request);
      txid, err := SignAndBroadcast(created, 0, ownerKey, wallet);
    }

    /** `transferContract`: a call of a token contract with the given call data and fee limit. */
    method TransferContract(ownerKey: PrivateKey, contract: string, data: seq<byte>, feeLimit: Int64,
                            wallet: WalletClient, decodeCheck: Base58Check) returns (txid: string, err: Option<Error>)
      requires |apiKeys| > 0
      modifies pkg`curIndex
      ensures Submitted(Outcome(txid, err), pkg.curIndex)
           == TransferContractResult(apiKeys, old(pkg.curIndex), ownerKey, DecodedOrNil(decodeCheck, contract), data, feeLimit, wallet)
    {
      var request := TriggerSmartContract(ownerKey.ownerAddress, DecodedOrNil(decodeCheck, contract), data);
      var createKey := GetApiKey();
      var created := wallet.triggerConstantContract(createKey, request);
      txid, err := SignAndBroadcast(created, feeLimit, ownerKey, wallet);
    }

    /**
     * The steps `transfer` and `transferContract` share after the create call:
     * check the skeleton, set the fee limit when positive, sign, broadcast.
     */
    method SignAndBroadcast(created: Result<TransactionExtention, Error>, feeLimit: Int64, ownerKey: PrivateKey,
                wallet: WalletClient) returns (txid: string, err: Option<Error>)
      requires |apiKeys| > 0
      modifies pkg`curIndex
      ensures Submitted(Outcome(txid, err), pkg.curIndex)
           == Submit(apiKeys, old(pkg.curIndex), created, feeLimit, ownerKey.sign, wallet.broadcastTransaction)
    {
      txid := "";
      if created.Failure? {
        return txid, Some(created.error);
      }
      var transaction := created.value.transaction;
      if !ValidSkeleton(transaction) {
        return txid, Some(InvalidTransaction);
      }
      var tx := transaction.value;
      if feeLimit > 0 {
        tx := tx.(rawData := Some(tx.rawData.value.(feeLimit := feeLimit)));
      }
      var signed := ownerKey.sign(tx);
      if signed.Failure? {
        return txid, Some(signed.error);
      }
      tx := tx.(signature := tx.signature + [signed.value.signature]);
      txid := HexEncode(signed.value.hash);
      var broadcastKey := GetApiKey();
      var result := wallet.broadcastTransaction(broadcastKey, tx);
      if result.Failure? {
        return "", Some(result.error);
      }
      if !result.value.result {
        return "", Some(Rejected(result.value));
      }
      err := None;
    }

    /** `processTransferParameter`: the call data of `transfer(to, amount)`. */
    method ProcessTransferParameter(to: string, amount: Int64, decodeCheck: Base58Check) returns (data: seq<byte>)
      requires |DecodedOrNil(decodeCheck, to)| >= 1
      ensures data == TransferCallData(DecodedOrNil(decodeCheck, to), amount)
      ensures |DecodedOrNil(decodeCheck, to)| <= 33 ==>
                |data| == 68 &&
                DecodeTransfer(data) == Some(TransferArgs(Zeros(33 - |DecodedOrNil(decodeCheck, to)|)
                                                          + DecodedOrNil(decodeCheck, to)[1..], Magnitude(amount)))
    {
      var methodID := TransferSelector;
      var addr := DecodedOrNil(decodeCheck, to);
      var paddedAddress := LeftPadBytes(addr[1..], WordSize);
      var paddedAmount := LeftPadBytes(BigIntBytes(Magnitude(amount)), WordSize);
      data := [];
      data := data + methodID;
      data := data + paddedAddress;
      data := data + paddedAmount;
      assert data == TransferSelector + paddedAddress + paddedAmount;
      if |addr| <= 33 {
        TransferCallDataRoundTrip(addr, amount);
      }
    }

    /** `Sen`: classify the contract address and route the transfer. */
    method Sen(key: PrivateKey, contract: string, to: string, baseUnits: Int32 -> Int64,
               wallet: WalletClient, decodeCheck: Base58Check) returns (txid: string, err: Option<Error>)
      requires SenDefined(pkg.mapContract, apiKeys, contract, to, decodeCheck)
      modifies pkg`curIndex
      ensures Submitted(Outcome(txid, err), pkg.curIndex)
           == SenResult(pkg.mapContract, apiKeys, old(pkg.curIndex), key, contract, to, baseUnits, wallet, decodeCheck)
    {
      var charge := ChargeContract(pkg.mapContract, contract);
      if charge.kind == Trx {
        txid, err := Transfer(key, to, baseUnits(charge.decimals), wallet, decodeCheck);
      } else if charge.kind == "trc20" {
        var data := ProcessTransferParameter(to, baseUnits(charge.decimals), decodeCheck);
        txid, err := TransferContract(key, contract, data, FeeLimit, wallet, decodeCheck);
      } else if charge.kind == "trc10" {
        txid, err := "", None;
      } else {
        txid, err := "", None;
      }
    }
  }

  /**
   * `Sen` returns ("", nil) exactly when it makes no transfer: for a trx or
   * trc20 route an empty txid always comes with an error.
   */
  lemma SenSilentExactlyWithoutTransfer(reg: Registry, keys: seq<string>, cursor: nat, key: PrivateKey,
                                        contract: string, to: string, baseUnits: Int32 -> Int64,
                                        wallet: WalletClient, decodeCheck: Base58Check)
    requires SenDefined(reg, keys, contract, to, decodeCheck)
    ensures var s := SenResult(reg, keys, cursor, key, contract, to, baseUnits, wallet, decodeCheck);
            var kind := ChargeContract(reg, contract).kind;
            s.outcome == Outcome("", None) <==> kind != Trx && kind != "trc20"
    ensures var s := SenResult(reg, keys, cursor, key, contract, to, baseUnits, wallet, decodeCheck);
            var kind := ChargeContract(reg, contract).kind;
            kind != Trx && kind != "trc20" ==> s.cursor == cursor
  {
  }

  /** An address that is neither native nor registered with a known kind makes no remote call. */
  lemma SenUnknownContractIsNoOp(reg: Registry, keys: seq<string>, cursor: nat, key: PrivateKey,
                                 contract: string, to: string, baseUnits: Int32 -> Int64,
                                 wallet: WalletClient, decodeCheck: Base58Check)
    requires !IsNative(contract) && !RegisteredKnown(reg, contract)
    ensures SenDefined(reg, keys, contract, to, decodeCheck)
    ensures SenResult(reg, keys, cursor, key, contract, to, baseUnits, wallet, decodeCheck)
         == Submitted(Outcome("", None), cursor)
  {
  }

  /**
   * Every address `ChargeContract` classifies as trx is a native transfer to
   * `to`, of the amount scaled by the decimals it reports: 6 for the native
   * addresses, the descriptor's own for a contract registered with type "trx".
   */
  lemma SenTrxRoute(reg: Registry, keys: seq<string>, cursor: nat, key: PrivateKey,
                    contract: string, to: string, baseUnits: Int32 -> Int64,
                    wallet: WalletClient, decodeCheck: Base58Check)
    requires |keys| > 0 && ChargeContract(reg, contract).kind == Trx
    ensures SenDefined(reg, keys, contract, to, decodeCheck)
    ensures SenResult(reg, keys, cursor, key, contract, to, baseUnits, wallet, decodeCheck)
         == TransferResult(keys, cursor, key, DecodedOrNil(decodeCheck, to),
                           baseUnits(ChargeContract(reg, contract).decimals), wallet)
  {
  }

  /**
   * A non-native contract registered with type "trx" is also a native transfer
   * to `to`, scaled by the descriptor's decimals rather than by 6.
   */
  lemma SenRegisteredTrxTransfer(reg: Registry, keys: seq<string>, cursor: nat, key: PrivateKey,
                                 contract: string, to: string, baseUnits: Int32 -> Int64,
                                 wallet: WalletClient, decodeCheck: Base58Check)
    requires |keys| > 0 && !IsNative(contract)
    requires Lookup(reg, contract).Some? && Lookup(reg, contract).value.typ == Trx
    ensures SenResult(reg, keys, cursor, key, contract, to, baseUnits, wallet, decodeCheck)
         == TransferResult(keys, cursor, key, DecodedOrNil(decodeCheck, to),
                           baseUnits(Lookup(reg, contract).value.decimal), wallet)
  {
    SenTrxRoute(reg, keys, cursor, key, contract, to, baseUnits, wallet, decodeCheck);
  }

  /** The native address is a native transfer of the amount scaled by 6 decimals. */
  lemma SenNativeTransfer(reg: Registry, keys: seq<string>, cursor: nat, key: PrivateKey,
                          contract: string, to: string, baseUnits: Int32 -> Int64,
                          wallet: WalletClient, decodeCheck: Base58Check)
    requires |keys| > 0 && IsNative(contract)
    ensures SenDefined(reg, keys, contract, to, decodeCheck)
    ensures SenResult(reg, keys, cursor, key, contract, to, baseUnits, wallet, decodeCheck)
         == TransferResult(keys, cursor, key, DecodedOrNil(decodeCheck, to), baseUnits(TrxDecimal), wallet)
  {
  }

  /**
   * A registered trc20 address is a contract call whose data encodes the
   * destination and the amount scaled by the descriptor's decimals, under the
   * fee limit 40000000 sun.
   */
  lemma SenTokenTransfer(reg: Registry, keys: seq<string>, cursor: nat, key: PrivateKey,
                         contract: string, to: string, baseUnits: Int32 -> Int64,
                         wallet: WalletClient, decodeCheck: Base58Check)
    requires |keys| > 0 && !IsNative(contract)
    requires Lookup(reg, contract).Some? && Lookup(reg, contract).value.typ == "trc20"
    requires |DecodedOrNil(decodeCheck, to)| >= 1
    ensures SenDefined(reg, keys, contract, to, decodeCheck)
    ensures SenResult(reg, keys, cursor, key, contract, to, baseUnits, wallet, decodeCheck)
         == TransferContractResult(keys, cursor, key, DecodedOrNil(decodeCheck, contract),
                                   TransferCallData(DecodedOrNil(decodeCheck, to), baseUnits(Lookup(reg, contract).value.decimal)),
                                   FeeLimit, wallet)
  {
  }
}
