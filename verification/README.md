# TRON transfer client — a Dafny model

This project models the decision and encoding logic of the TRON transfer client
in `pkg/client/rpc/grpc.go` (the gRPC side) and `pkg/client/client.go` (the REST
side). It leaves out the network, the cryptography and the floating-point steps.

- **Contract registry and classifier** (`contracts.dfy`, `client.dfy`, `grpc.dfy`).
  A registry maps contract addresses to descriptors (`ContractModel`). The Go map
  may hold nil pointers, so a value is an `Option`. `ChargeContract` maps an
  address to its kind and decimals. `InitContract` registers descriptors until
  it meets the first one whose type is not `trx`, `trc10` or `trc20`.
  `SetContractMap` replaces the whole registry.
- **API-key rotation** (`rotation.dfy`, and `GetApiKey` in both packages). The
  package-level cursor `curIndex` is a field of a class standing for the package
  (`RpcPackage`, `ClientPackage`). Each `getApiKey` call is one atomic step. A
  full cycle of calls hands out every key exactly once.
- **Token-transfer call data** (`abi.dfy`, `ProcessTransferParameter`). The data
  is the selector `a9 05 9c bb`, the destination without its version byte padded
  to a 32-byte word, and the amount's big-endian bytes padded to a word. This is
  the static-argument layout of the Ethereum contract ABI. `DecodeTransfer` reads
  such data back, and the round trip is proved.
- **Transfer dispatch and submission** (`submission.dfy`, `grpc.dfy`). `Sen`
  routes by kind. `transfer` and `transferContract` create the transaction,
  check its skeleton, optionally set the fee limit, sign, broadcast and then
  decide `(txid, err)`. The node's remote calls, the signer and the base-58
  decoder are function values passed in (`WalletClient`, `PrivateKey`,
  `Base58Check`). Each remote call takes one API key, so the cursor is part of
  every outcome.
- **Balance scaling and the balance map** (`decimals.dfy`, `client.dfy`). A
  decimal is an exact coefficient and exponent with value `coef * 10^exp`.
  `BalanceAccuracy` multiplies by `10^exp`. `GetTRXBalance` builds a name-to-amount
  map holding the native balance and the registered tokens.

Four behaviours of the code worth knowing:
- `InitContract` does not roll back. The descriptors inserted before the first
  unknown type stay in the registry (`Client.InitContractResult`).
- A broadcast that fails, or that the node refuses, returns `""` together with
  the error. The txid already computed is discarded
  (`Submission.BroadcastFailureDropsTxid`).
- `Sen` on a `trc10` contract, or on an unknown address, returns `("", nil)`
  without any remote call (`Rpc.SenSilentExactlyWithoutTransfer`).
- `Sen` routes by the kind `ChargeContract` reports, not by the address. A
  contract registered with type `trx` is therefore sent as a native transfer to
  the destination, with the amount scaled by that descriptor's decimals rather
  than by 6 (`Rpc.SenRegisteredTrxTransfer`).

## Model

| member | source | states |
|---|---|---|
| Contracts.ChargeContract | pkg/client/rpc/grpc.go:57-67 | `""` and `"trx"` give `("trx", 6)`; a non-native address with a registered descriptor of a recognised type gives that descriptor's type and decimals; every other address gives `("NONE", 18)`, and `"NONE"` is reported exactly in that case; `chargeContract` at pkg/client/client.go:44-54 is the same code over the client package's registry |
| Contracts.NativeIgnoresRegistry | pkg/client/rpc/grpc.go:58-60 | the native addresses are classified as `("trx", 6)` whatever two registries hold |
| GoInts.Neg32 | pkg/client/client.go:130 | Go's int32 negation: `-x`, except that the most negative value wraps to itself |
| Rotation.Clamp | pkg/client/rpc/grpc.go:80-83 | the index read is the cursor when it is in range and 0 when it is not, so always below a non-zero key count |
| Rotation.Next | pkg/client/rpc/grpc.go:84 | the cursor after a call is the clamped cursor plus one, wrapping to 0 at the end, and stays in `[0, len)` |
| Rotation.FullCycleVisitsEachIndexOnce | pkg/client/rpc/grpc.go:76-86 | `len` consecutive calls read indices that are all in range, cover every index and are pairwise distinct |
| Rotation.FullCycleServesRotation | pkg/client/rpc/grpc.go:76-86 | `len` consecutive calls return the key list rotated to start at the clamped cursor, hence each key exactly as often as it is listed |
| Rpc.Rpc.GetApiKey | pkg/client/rpc/grpc.go:76-86 | returns the key at the clamped cursor and leaves the shared cursor at `Next` of the old one, inside `[0, len)` |
| Client.ClientPackage.GetApiKey | pkg/client/client.go:82-92 | the same rotation step over `ApiKeys` and the client package's cursor |
| Rpc.RpcPackage.constructor | pkg/client/rpc/grpc.go:27-46 | the package starts with cursor 0 and an empty registry |
| Rpc.RpcPackage.SetContractMap | pkg/client/rpc/grpc.go:48-50 | the registry becomes the given map and the cursor is untouched |
| Rpc.Rpc.constructor | pkg/client/rpc/grpc.go:68-70 | a client holds the given keys and shares the package state |
| Abi.LeftPadBytes | pkg/client/rpc/grpc.go:216-218 | the result has length `max(len, l)`, ends with the input and starts with zero bytes |
| Abi.BigIntBytes | pkg/client/rpc/grpc.go:217-218 | the minimal big-endian bytes of a number: they read back as the number, have no leading zero, and are empty exactly for 0 |
| Abi.Magnitude | pkg/client/rpc/grpc.go:217-218 | the number `big.Int.Bytes` encodes for an int64: below `2^64`, and the amount itself when non-negative, its negation when negative (the int64 minimum included) |
| Abi.AmountFitsWord | pkg/client/rpc/grpc.go:217-218 | the bytes of any int64 magnitude are at most 8 long |
| Abi.TransferCallData | pkg/client/rpc/grpc.go:213-223 | the call data starts with `a9 05 9c bb`, has length `4 + max(32, len-1) + 32`, and exactly 68 bytes when the decoded address has at most 33 bytes |
| Abi.TransferCallDataRoundTrip | pkg/client/rpc/grpc.go:214-221 | decoding the call data gives `zeros ++ addr[1:]` as the address word and the amount's magnitude as the value word; for a non-negative amount, the amount itself |
| Abi.NegativeAmountEncodesMagnitude | pkg/client/rpc/grpc.go:217-218 | a negative amount produces the same call data as its absolute value, because `big.Int.Bytes` drops the sign |
| Abi.LeftPadKeepsValue | pkg/client/rpc/grpc.go:218 | left-padding does not change the big-endian value |
| Rpc.Rpc.ProcessTransferParameter | pkg/client/rpc/grpc.go:213-223 | the successive appends build exactly `TransferCallData`; for an address of at most 33 bytes the data is 68 bytes long and decodes back to the address word and the amount |
| Tron.DecodedOrNil | pkg/client/rpc/grpc.go:143 | an address whose decoding fails becomes nil bytes; otherwise the decoded bytes |
| Tron.HexEncode | pkg/client/rpc/grpc.go:161 | the txid is `"0x"` followed by two characters per hash byte, so it is never empty |
| Tron.HexEncodeDigits | pkg/client/rpc/grpc.go:161 | after the `"0x"`, byte `i` of the hash is spelled by the hex digits of its high and low nibbles, in order |
| Tron.WithSignature | pkg/client/rpc/grpc.go:195 | signing appends the signature to the transaction and leaves its raw data, fee limit included, as it was |
| Tron.HexEncodeInjective | pkg/client/rpc/grpc.go:199 | distinct hashes give distinct txids |
| Submission.ApplyFeeLimit | pkg/client/rpc/grpc.go:191-193 | a positive fee limit overwrites `RawData.FeeLimit`; otherwise the transaction is unchanged; contracts and signatures are untouched |
| Submission.Prepared | pkg/client/rpc/grpc.go:186-193 | a transaction reaches the signer exactly when the create call succeeded and the skeleton has at least one contract entry |
| Submission.Submit | pkg/client/rpc/grpc.go:148-209 | the txid is non-empty exactly when there is no error, which happens exactly when create, check, sign and broadcast all succeed and the node accepts; the txid is then the hex of the signing hash; a create error or a bad skeleton returns `""` with that error and takes no further key; a signing failure returns `""` with the signer's error and takes no key; after a signature the signed transaction is broadcast, a transport error comes back as it is and a refusal as `Rejected` with the node's reply; the broadcast takes one more key only after a successful signature; `transfer` (lines 148-171) and `transferContract` (lines 182-209) share this law |
| Submission.BroadcastFailureDropsTxid | pkg/client/rpc/grpc.go:201-208 | a broadcast error or a `Result == false` reply yields `""` and an error, never the computed txid |
| Submission.FeeLimitIsBroadcast | pkg/client/rpc/grpc.go:191-202 | the transaction broadcast, which is the one signed with its signature appended, carries the fee-limit argument when positive and the node's fee limit otherwise, the node's contract entries, and the node's signatures followed by the new one |
| Submission.InvalidSkeletonNeverSigned | pkg/client/rpc/grpc.go:183-190 | after a create error or an empty skeleton, the outcome does not depend on the signer or the broadcaster |
| Rpc.Rpc.Transfer | pkg/client/rpc/grpc.go:139-172 | the outcome and the new cursor are those of `TransferResult`: one key for the create call, then `Submit` with no fee limit |
| Rpc.Rpc.TransferContract | pkg/client/rpc/grpc.go:175-210 | the outcome and the new cursor are those of `TransferContractResult`: one key for the trigger call, then `Submit` with the fee limit |
| Rpc.Rpc.SignAndBroadcast | pkg/client/rpc/grpc.go:186-209 | the imperative check, fee-limit, sign and broadcast steps produce exactly `Submit`'s outcome and cursor |
| Rpc.Rpc.Sen | pkg/client/rpc/grpc.go:226-243 | the outcome and the new cursor are `SenResult` of the registry: trx goes to a native transfer, trc20 to a contract transfer, everything else to `("", nil)` |
| Rpc.SenSilentExactlyWithoutTransfer | pkg/client/rpc/grpc.go:226-243 | `Sen` returns `("", nil)` exactly when the kind is neither trx nor trc20, and then no key is used, so an empty key list is accepted there |
| Rpc.SenUnknownContractIsNoOp | pkg/client/rpc/grpc.go:227-241 | an address that is neither native nor registered with a recognised type makes no remote call and returns `("", nil)`, whatever the key list, empty included |
| Rpc.SenTrxRoute | pkg/client/rpc/grpc.go:227-232 | every address classified as trx becomes a native transfer to the destination of the amount scaled by the decimals the classification reports |
| Rpc.SenRegisteredTrxTransfer | pkg/client/rpc/grpc.go:61-63 | a non-native contract registered with type `trx` becomes a native transfer to the destination, scaled by the descriptor's decimals |
| Rpc.SenNativeTransfer | pkg/client/rpc/grpc.go:229-232 | a native address becomes a native transfer of the amount scaled by 6 decimals |
| Rpc.SenTokenTransfer | pkg/client/rpc/grpc.go:233-237 | a registered trc20 address becomes a contract transfer of the encoded call data, with the amount scaled by the descriptor's decimals and the fee limit 40000000 |
| Client.Entries | pkg/client/client.go:35 | the i-th registry assignment is the i-th descriptor under its contract address |
| Client.FirstUnknown | pkg/client/client.go:33-38 | the index where registration stops: every earlier type is recognised and the type there is not |
| Client.InitContractResult | pkg/client/client.go:32-41 | an error is returned exactly when some descriptor has an unknown type, and it names the first such type; all descriptors before it are registered, and existing keys stay |
| Client.ClientPackage.InitContract | pkg/client/client.go:32-41 | the loop leaves the registry and the error of `InitContractResult` |
| Client.InitStopsAtFirstUnknown | pkg/client/client.go:33-38 | the registry left behind is the one the descriptors before the first unknown kind produce: nothing inserted is rolled back and nothing after it is inserted |
| Client.InitContractKeepsPrefix | pkg/client/client.go:33-38 | with or without an error, each descriptor before the first unknown kind is found under its address (the last one wins within that prefix) and every other address keeps its old entry |
| Client.InitContractRegistersAll | pkg/client/client.go:33-36 | when all types are recognised there is no error, each descriptor is found under its address unless a later one reuses it, and other addresses keep their entries |
| Client.ClassifyAfterInit | pkg/client/client.go:32-54 | after registration, a non-native address is classified with the type and decimals of its last descriptor |
| Client.ClientPackage.ChargeContractObj | pkg/client/client.go:56-61 | the stored descriptor (or nil) for a registered address, nil for an absent one; a recognised descriptor is the one `chargeContract` classifies by |
| Decimals.BalanceAccuracy | pkg/client/client.go:117-120 | the parsed decimal, or zero when the text does not parse, times `decimal.New(1, exp)`: the digits are kept and the exponent grows by `exp`, with no rounding; its value law is `Decimals.BalanceAccuracyScales` |
| Decimals.MulValue | pkg/client/client.go:119 | the product of two decimals has the product of their values |
| Decimals.BalanceAccuracyScales | pkg/client/client.go:117-120 | the result's value is the parsed value times `10^exp`; text that does not parse reads as 0 |
| Decimals.BalanceAccuracyRoundTrip | pkg/client/client.go:117-120 | scaling by `exp` and then by `-exp` gives back the same decimal and the same value |
| Decimals.ScaledByMinusDecimal | pkg/client/client.go:130 | scaling by Go's `-Decimal` multiplies by `10^-Decimal` |
| Decimals.ScaleExample | pkg/client/client.go:117-120 | 1.5 scaled by 6 decimals is 1500000 |
| Client.BalanceHasTrx | pkg/client/client.go:125-126 | the balance map always holds the `trx` key, and the native amount is the balance times `10^-6` |
| Client.BalanceKeys | pkg/client/client.go:124-133 | the keys are exactly `trx` and the names of the registered contracts the account reports |
| Client.BalanceTrxValue | pkg/client/client.go:126-130 | the `trx` entry is the native balance unless a registered token is itself named `trx` |
| Client.TokenValueLastWins | pkg/client/client.go:127-133 | a registered token entry is stored under its name, scaled by `-Decimal`, unless a later registered entry has the same name |
| Client.BalanceTokenValue | pkg/client/client.go:127-133 | the same, over all the token maps the account reports |
| Client.BalanceIgnoresUnregistered | pkg/client/client.go:129 | a token entry for an unregistered contract, appended as a new one-entry map at the end, leaves the balance map unchanged |
| Client.TokenEntriesSkipUnregistered | pkg/client/client.go:128-131 | an unregistered token entry inserted at any position adds no balance-map assignment |
| Client.BalanceSkipsUnregistered | pkg/client/client.go:127-133 | an account reporting one more token entry, for an unregistered contract and at any position of its token maps, has the same balance map |
| Client.ClientPackage.constructor | pkg/client/client.go:18-29 | the package starts with cursor 0, the given keys and an empty registry |
| Client.ClientPackage.GetTRXBalance | pkg/client/client.go:123-135 | the nested loops build exactly `BalanceMap`, and the result holds `trx` |

## Left out

- gRPC connection management (`creationConn`, `getNode`, `GetClient`) is transport. The model does not capture that `getNode` never stores the connection it dials, nor that `log.Fatal` ends the process on a dial error.
- `getIp` picks an endpoint at random, so it is left out as nondeterministic I/O.
- `timeoutContext` spawns a goroutine to cancel after 30 seconds. Only its effect on the key cursor is modelled: one key per remote call.
- The mutexes around `curIndex` are left out. Each `GetApiKey` call is one atomic step, and interleavings are not modelled.
- The REST calls `GetAccount`, `GetTransactionsTrc20`, `GetBlockById` and `getClient` are HTTP I/O and JSON decoding. `GetTRXBalance` takes the account as a `GetAccountModel` value.
- `Rpc.Rpc.Sen`: the `Float64()` conversion of the scaled amount and the `int64` cast are floating point. The caller supplies the base-unit amount as `baseUnits(decimals)`.
- `Rpc.Rpc.Sen`: requires that a trc20 destination decodes to at least one byte, and a non-empty key list on the trx and trc20 routes only. `addr[1:]` and `getApiKey` panic otherwise, and a panic is not modelled as a result.
- `Rpc.Rpc.ProcessTransferParameter`: requires a decoded address of at least one byte, for the same reason.
- `Rpc.Rpc.GetApiKey` and `Client.ClientPackage.GetApiKey`: require a non-empty key list. An empty list is an index-out-of-range panic in Go.
- `base58.DecodeCheck`, `crypto.PubkeyToAddress`, `sign.SignTransaction` and the gotron protobuf types are foreign code. They appear as function values or plain datatypes, and their behaviour is whatever the caller supplies.
- pkg/hexutil is not part of this model. `hexutil.Encode` is taken as `"0x"` followed by lower-case hex.
- `Abi.TransferCallData`: the selector bytes `a9 05 9c bb` at the start are an assumption about pkg/hexutil, namely that `hexutil.Decode` accepts `"a9059cbb"` without a `"0x"` prefix. A decoder that insisted on the prefix would return nil there, and the call data would have no selector.
- `sign.SignTransaction` is taken to hash the raw data, append the signature to the transaction in place, and return the hash (`Tron.WithSignature`).
- Remote errors are one `Remote(message)` case. The model does not tell transport errors from deadline errors.
- `Decimals.BalanceAccuracy`: the shopspring decimal text parsing, the `String()` rendering and the `gconv` conversions are left abstract. The input is an already parsed `Option<Decimal>` (`None` is text that does not parse, read as 0), and the result is the decimal itself, not its text.
- `Decimals.BalanceAccuracy`: shopspring stores exponents as int32 and panics on overflow. The model's exponents are unbounded integers.
- `Client.ClientPackage.GetTRXBalance`: Go iterates over each token map in a random order. The model takes the order of the given sequence. When two registered contracts share a display name, the later one in that order wins.
- `Client.ClientPackage.InitContract`: Go stores `&contracts[i]`, a pointer into the caller's slice. The model stores the descriptor value, so later changes the caller makes through that slice are not modelled.
- `Rpc.RpcPackage.SetContractMap`: Go stores the caller's map itself, and the registry holds pointers to the caller's descriptors. Later writes to that map, or through those pointers, change what `ChargeContract` reports. The model stores a copy of the map's value, so that aliasing is not captured.
- `Client.BalanceTrxValue`: requires that no registered token is named `trx`. Such a token overwrites the native entry, as `Client.BalanceKeys` and `Client.BalanceTokenValue` show.
- `Decimals.ScaledByMinusDecimal` and `Decimals.BalanceAccuracyRoundTrip`: require an exponent other than the most negative int32. Go's negation wraps there (`GoInts.Neg32`), and the scaling is then by `10^exp`.
- The `Trx` identifier in pkg/client/client.go is defined outside the two files. It is taken to be `"trx"`, as in grpc.go.
- `NewClient` and the `Url` field only choose a REST endpoint, so they are left out with the REST calls.
