/**
 * The contract registry of the TRON client: descriptors keyed by contract
 * address, and the classifier that maps an address to its kind and decimal
 * precision. `ChargeContract` in pkg/client/rpc/grpc.go and `chargeContract`
 * in pkg/client/client.go are the same code over two package-level maps; both
 * are `ChargeContract` below, applied to the registry of each package.
 */
module Contracts {
  import opened Wrappers
  import opened GoInts

  /** The native currency's kind string and the sentinel address for it. */
  const Trx: string := "trx"
  /** Decimal places of the native currency (1 trx = 10^6 sun). */
  const TrxDecimal: Int32 := 6
  /** Kind reported for an address the registry does not describe. */
  const Unknown: string := "NONE"
  /** Decimals reported for an address the registry does not describe. */
  const UnknownDecimal: Int32 := 18

  /** A contract descriptor (`ContractModel`). */
  datatype ContractModel = ContractModel(contract: string, typ: string, decimal: Int32, name: string)

  /** The closed set of kinds `mapContractType` accepts. */
  predicate Recognised(typ: string) {
    typ == "trx" || typ == "trc10" || typ == "trc20"
  }

  /**
   * A registry: Go's `map[string]*ContractModel`. A key may map to a nil
   * pointer, hence `Option`.
   */
  type Registry = map<string, Option<ContractModel>>

  /** Go's `m[a]`: the stored pointer, or nil when `a` is absent. */
  function Lookup(reg: Registry, a: string): Option<ContractModel> {
    if a in reg then reg[a] else None
  }

  /** True when `a` names the native currency (the empty string or the sentinel). */
  predicate IsNative(a: string) {
    a == Trx || a == ""
  }

  /** True when `a` has a descriptor whose kind is recognised. */
  predicate RegisteredKnown(reg: Registry, a: string) {
    Lookup(reg, a).Some? && Recognised(Lookup(reg, a).value.typ)
  }

  /** What `ChargeContract` reports: the contract kind and its decimals. */
  datatype Charge = Charge(kind: string, decimals: Int32)

  /** Classifies an address (never fails). */
  function ChargeContract(reg: Registry, contract: string): (r: Charge)
    ensures Recognised(r.kind) || r == Charge(Unknown, UnknownDecimal)
    ensures r.kind == Unknown <==> !IsNative(contract) && !RegisteredKnown(reg, contract)
    ensures IsNative(contract) ==> r == Charge(Trx, TrxDecimal)
    ensures !IsNative(contract) && RegisteredKnown(reg, contract) ==>
              r == Charge(Lookup(reg, contract).value.typ, Lookup(reg, contract).value.decimal)
  {
    if IsNative(contract) then Charge(Trx, TrxDecimal)
    else match Lookup(reg, contract)
      case Some(v) =>
        if Recognised(v.typ) then Charge(v.typ, v.decimal) else Charge(Unknown, UnknownDecimal)
      case None => Charge(Unknown, UnknownDecimal)
  }

  /** The native addresses are classified the same way whatever the registry holds. */
  lemma NativeIgnoresRegistry(reg1: Registry, reg2: Registry, contract: string)
    requires IsNative(contract)
    ensures ChargeContract(reg1, contract) == ChargeContract(reg2, contract) == Charge(Trx, TrxDecimal)
  {
  }

  /** The error `InitContract` returns for a descriptor of an unknown kind. */
  datatype RegistryError = UnknownContractType(typ: string)
}
