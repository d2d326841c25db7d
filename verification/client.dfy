/**
 * pkg/client/client.go: the REST side of the TRON client. Its package-level
 * variables (the API keys, their cursor and the contract registry) are the
 * fields of `ClientPackage`. The REST calls themselves are not modelled; what
 * is modelled is what the package computes around them: registration and
 * lookup of contract descriptors, key rotation and the balance map.
 */
module Client {
  import opened Wrappers
  import opened GoInts
  import opened Contracts
  import opened Decimals
  import opened MapUpdates
  import opened Rotation

  /** The registry assignments `InitContract` makes for `contracts`, in order. */
  function Entries(contracts: seq<ContractModel>): (e: seq<(string, Option<ContractModel>)>)
    ensures |e| == |contracts|
    ensures forall i :: 0 <= i < |contracts| ==> e[i] == (contracts[i].contract, Some(contracts[i]))
  {
    seq(|contracts|, i requires 0 <= i < |contracts| => (contracts[i].contract, Some(contracts[i])))
  }

  lemma EntriesStep(contracts: seq<ContractModel>, i: nat)
    requires i < |contracts|
    ensures Entries(contracts[..i + 1]) == Entries(contracts[..i]) + [(contracts[i].contract, Some(contracts[i]))]
  {
  }

  /** The index of the first descriptor of an unknown kind, or `|contracts|` when there is none. */
  function FirstUnknown(contracts: seq<ContractModel>): (k: nat)
    ensures k <= |contracts|
    ensures forall i :: 0 <= i < k ==> Recognised(contracts[i].typ)
    ensures k < |contracts| ==> !Recognised(contracts[k].typ)
  {
    if contracts == [] then 0
    else if !Recognised(contracts[0].typ) then 0
    else 1 + FirstUnknown(contracts[1..])
  }

  /** The first unknown kind is at `k` when everything before it is known. */
  lemma {:induction false} FirstUnknownAt(contracts: seq<ContractModel>, k: nat)
    requires k <= |contracts|
    requires forall i :: 0 <= i < k ==> Recognised(contracts[i].typ)
    requires k < |contracts| ==> !Recognised(contracts[k].typ)
    ensures FirstUnknown(contracts) == k
    decreases k
  {
    if k > 0 {
      FirstUnknownAt(contracts[1..], k - 1);
    }
  }

  /**
   * The registry and the error `InitContract` leaves: descriptors are inserted
   * in order until the first one of an unknown kind, which is reported; what was
   * inserted before it stays.
   */
  function InitContractResult(reg: Registry, contracts: seq<ContractModel>): (r: (Registry, Option<RegistryError>))
    ensures r.1.Some? <==> exists i :: 0 <= i < |contracts| && !Recognised(contracts[i].typ)
    ensures r.1.Some? ==> r.1.value == UnknownContractType(contracts[FirstUnknown(contracts)].typ)
    ensures forall i :: 0 <= i < FirstUnknown(contracts) ==> contracts[i].contract in r.0
    ensures reg.Keys <= r.0.Keys
    ensures FirstUnknown(contracts) == 0 ==> r.0 == reg
  {
    var k := FirstUnknown(contracts);
    var registered := PutAll(reg, Entries(contracts[..k]));
    PutAllKeys(reg, Entries(contracts[..k]));
    assert forall i :: 0 <= i < k ==> Entries(contracts[..k])[i] in Entries(contracts[..k]);
    if k < |contracts| then (registered, Some(UnknownContractType(contracts[k].typ)))
    else (registered, None)
  }

  /**
   * After a successful registration every descriptor is found under its
   * address (the last one wins for a repeated address), and every other address
   * keeps what it had.
   */
  lemma {:induction false} InitContractRegistersAll(reg: Registry, contracts: seq<ContractModel>)
    requires forall i :: 0 <= i < |contracts| ==> Recognised(contracts[i].typ)
    ensures InitContractResult(reg, contracts).1 == None
    ensures forall j :: 0 <= j < |contracts| && (forall i :: j < i < |contracts| ==> contracts[i].contract != contracts[j].contract)
              ==> Lookup(InitContractResult(reg, contracts).0, contracts[j].contract) == Some(contracts[j])
    ensures forall a :: (forall i :: 0 <= i < |contracts| ==> contracts[i].contract != a)
              ==> Lookup(InitContractResult(reg, contracts).0, a) == Lookup(reg, a)
  {
    assert contracts[..|contracts|] == contracts;
    var e := Entries(contracts);
    FirstUnknownAt(contracts, |contracts|);
    assert InitContractResult(reg, contracts).0 == PutAll(reg, e);
    forall j | 0 <= j < |contracts| && (forall i :: j < i < |contracts| ==> contracts[i].contract != contracts[j].contract)
      ensures Lookup(InitContractResult(reg, contracts).0, contracts[j].contract) == Some(contracts[j])
    {
      PutAllLastWins(reg, e, j);
    }
    forall a | (forall i :: 0 <= i < |contracts| ==> contracts[i].contract != a)
      ensures Lookup(InitContractResult(reg, contracts).0, a) == Lookup(reg, a)
    {
      PutAllKeepsOthers(reg, e, a);
    }
  }

  /**
   * Registration stops at the first descriptor of an unknown kind: the registry
   * is the one the prefix before it produces, with nothing rolled back and
   * nothing after it inserted.
   */
  lemma InitStopsAtFirstUnknown(reg: Registry, contracts: seq<ContractModel>)
    ensures InitContractResult(reg, contracts).0
         == InitContractResult(reg, contracts[..FirstUnknown(contracts)]).0
  {
    var p := contracts[..FirstUnknown(contracts)];
    assert p[..|p|] == p;
    FirstUnknownAt(p, |p|);
  }

  /**
   * Whether or not registration fails, every descriptor before the first
   * unknown kind is found under its address (the last one wins within that
   * prefix), and every address not in that prefix keeps what it had, even one
   * that a descriptor after the failure names.
   */
  lemma InitContractKeepsPrefix(reg: Registry, contracts: seq<ContractModel>)
    ensures var k := FirstUnknown(contracts);
            forall j :: 0 <= j < k && (forall i :: j < i < k ==> contracts[i].contract != contracts[j].contract)
              ==> Lookup(InitContractResult(reg, contracts).0, contracts[j].contract) == Some(contracts[j])
    ensures var k := FirstUnknown(contracts);
            forall a :: (forall i :: 0 <= i < k ==> contracts[i].contract != a)
              ==> Lookup(InitContractResult(reg, contracts).0, a) == Lookup(reg, a)
  {
    var k := FirstUnknown(contracts);
    var p := contracts[..k];
    InitStopsAtFirstUnknown(reg, contracts);
    InitContractRegistersAll(reg, p);
    assert forall i :: 0 <= i < k ==> p[i] == contracts[i];
  }

  /**
   * Registering and then classifying: a registered, non-native address is
   * classified with the kind and decimals of its (last) descriptor.
   */
  lemma ClassifyAfterInit(reg: Registry, contracts: seq<ContractModel>, j: nat)
    requires forall i :: 0 <= i < |contracts| ==> Recognised(contracts[i].typ)
    requires j < |contracts| && !IsNative(contracts[j].contract)
    requires forall i :: j < i < |contracts| ==> contracts[i].contract != contracts[j].contract
    ensures ChargeContract(InitContractResult(reg, contracts).0, contracts[j].contract)
         == Charge(contracts[j].typ, contracts[j].decimal)
  {
    InitContractRegistersAll(reg, contracts);
  }

  /** What `GetAccount` returns, as `GetTRXBalance` reads it. */
  datatype GetAccountModel = GetAccountModel(
    balance: Int64,                                 // native balance in sun
    trc20: seq<seq<(string, Option<Decimal>)>>)     // per map: (contract, parsed amount) in iteration order

  /** The entries of all the token maps, map after map. */
  function Flatten<T>(t: seq<seq<T>>): (f: seq<T>)
    ensures t == [] ==> f == []
  {
    if t == [] then [] else Flatten(t[..|t| - 1]) + t[|t| - 1]
  }

  /** The balance-map assignments made for the token entries `kvs`: registered contracts only. */
  function TokenEntries(reg: Registry, kvs: seq<(string, Option<Decimal>)>): seq<(string, Decimal)> {
    if kvs == [] then []
    else
      var last := kvs[|kvs| - 1];
      match Lookup(reg, last.0)
      case None => TokenEntries(reg, kvs[..|kvs| - 1])
      case Some(d) => TokenEntries(reg, kvs[..|kvs| - 1]) + [(d.name, BalanceAccuracy(last.1, Neg32(d.decimal)))]
  }

  /** The native entry every balance map starts from. */
  function NativeBalance(balance: Int64): Decimal {
    BalanceAccuracy(Some(Decimal(balance, 0)), Neg32(TrxDecimal))
  }

  /** The map `GetTRXBalance` returns. */
  function BalanceMap(reg: Registry, req: GetAccountModel): map<string, Decimal> {
    PutAll(map[Trx := NativeBalance(req.balance)], TokenEntries(reg, Flatten(req.trc20)))
  }

  /** The display names the registry gives to the registered contracts among `kvs`. */
  function RegisteredNames(reg: Registry, kvs: seq<(string, Option<Decimal>)>): set<string> {
    set p | p in kvs && Lookup(reg, p.0).Some? :: Lookup(reg, p.0).value.name
  }

  lemma {:induction false} TokenEntriesNames(reg: Registry, kvs: seq<(string, Option<Decimal>)>)
    ensures (set e | e in TokenEntries(reg, kvs) :: e.0) == RegisteredNames(reg, kvs)
    decreases |kvs|
  {
    if kvs != [] {
      var init, last := kvs[..|kvs| - 1], kvs[|kvs| - 1];
      var es := TokenEntries(reg, init);
      TokenEntriesNames(reg, init);
      assert kvs == init + [last];
      assert RegisteredNames(reg, kvs) == RegisteredNames(reg, init) + RegisteredNames(reg, [last]) by {
        forall p | p in kvs ensures p in init || p == last { }
      }
      match Lookup(reg, last.0)
      case None =>
        assert TokenEntries(reg, kvs) == es;
        assert RegisteredNames(reg, [last]) == {};
      case Some(d) =>
        var x := (d.name, BalanceAccuracy(last.1, Neg32(d.decimal)));
        assert TokenEntries(reg, kvs) == es + [x];
        assert RegisteredNames(reg, [last]) == {d.name};
        assert (set e | e in es + [x] :: e.0) == (set e | e in es :: e.0) + {d.name} by {
          forall e | e in es + [x] ensures e in es || e == x { }
        }
    }
  }

  /** The native balance is always present, scaled by 10^-6. */
  lemma BalanceHasTrx(reg: Registry, req: GetAccountModel)
    ensures Trx in BalanceMap(reg, req)
    ensures Value(NativeBalance(req.balance)) == req.balance as real * Pow10(-6)
  {
    BalanceAccuracyScales(Some(Decimal(req.balance, 0)), Neg32(TrxDecimal));
  }

  /**
   * The keys of the balance map are exactly the native key and the names of the
   * registered contracts the account reports; unregistered contracts are skipped.
   */
  lemma BalanceKeys(reg: Registry, req: GetAccountModel)
    ensures BalanceMap(reg, req).Keys == {Trx} + RegisteredNames(reg, Flatten(req.trc20))
  {
    TokenEntriesNames(reg, Flatten(req.trc20));
    PutAllKeys(map[Trx := NativeBalance(req.balance)], TokenEntries(reg, Flatten(req.trc20)));
  }

  /**
   * The native entry keeps the native balance unless a registered contract the
   * account reports is itself named like the native key.
   */
  lemma BalanceTrxValue(reg: Registry, req: GetAccountModel)
    requires Trx !in RegisteredNames(reg, Flatten(req.trc20))
    ensures BalanceMap(reg, req)[Trx] == NativeBalance(req.balance)
  {
    var entries := TokenEntries(reg, Flatten(req.trc20));
    TokenEntriesNames(reg, Flatten(req.trc20));
    forall i | 0 <= i < |entries|
      ensures entries[i].0 != Trx
    {
      assert entries[i] in entries;
    }
    PutAllKeepsOthers(map[Trx := NativeBalance(req.balance)], entries, Trx);
  }

  /**
   * A registered token entry appears under its descriptor's name, scaled by
   * 10^-Decimal, unless a later registered entry carries the same name.
   */
  lemma {:induction false} TokenValueLastWins(reg: Registry, m: map<string, Decimal>,
                                              kvs: seq<(string, Option<Decimal>)>, p: nat)
    requires p < |kvs| && Lookup(reg, kvs[p].0).Some?
    requires forall q :: p < q < |kvs| && Lookup(reg, kvs[q].0).Some? ==>
               Lookup(reg, kvs[q].0).value.name != Lookup(reg, kvs[p].0).value.name
    ensures var d := Lookup(reg, kvs[p].0).value;
            d.name in PutAll(m, TokenEntries(reg, kvs))
            && PutAll(m, TokenEntries(reg, kvs))[d.name] == BalanceAccuracy(kvs[p].1, Neg32(d.decimal))
    decreases |kvs|
  {
    var init, last := kvs[..|kvs| - 1], kvs[|kvs| - 1];
    if p < |kvs| - 1 {
      TokenValueLastWins(reg, m, init, p);
      var es := TokenEntries(reg, init);
      if Lookup(reg, last.0).Some? {
        PutAllAppend(m, es, [(Lookup(reg, last.0).value.name, BalanceAccuracy(last.1, Neg32(Lookup(reg, last.0).value.decimal)))]);
      }
    } else {
      var es := TokenEntries(reg, init);
      var d := Lookup(reg, last.0).value;
      PutAllAppend(m, es, [(d.name, BalanceAccuracy(last.1, Neg32(d.decimal)))]);
    }
  }

  /**
   * The token entries of the balance map, stated over the flattened account
   * data; `Decimals.ScaledByMinusDecimal` gives the value of such an entry.
   */
  lemma BalanceTokenValue(reg: Registry, req: GetAccountModel, p: nat)
    requires p < |Flatten(req.trc20)| && Lookup(reg, Flatten(req.trc20)[p].0).Some?
    requires forall q :: p < q < |Flatten(req.trc20)| && Lookup(reg, Flatten(req.trc20)[q].0).Some? ==>
               Lookup(reg, Flatten(req.trc20)[q].0).value.name != Lookup(reg, Flatten(req.trc20)[p].0).value.name
    ensures var d := Lookup(reg, Flatten(req.trc20)[p].0).value;
            d.name in BalanceMap(reg, req)
            && BalanceMap(reg, req)[d.name] == BalanceAccuracy(Flatten(req.trc20)[p].1, Neg32(d.decimal))
  {
    TokenValueLastWins(reg, map[Trx := NativeBalance(req.balance)], Flatten(req.trc20), p);
  }

  /** Reporting an unregistered contract changes nothing in the balance map. */
  lemma BalanceIgnoresUnregistered(reg: Registry, req: GetAccountModel, contract: string, amount: Option<Decimal>)
    requires Lookup(reg, contract).None?
    ensures BalanceMap(reg, req.(trc20 := req.trc20 + [[(contract, amount)]])) == BalanceMap(reg, req)
  {
    var t := req.trc20 + [[(contract, amount)]];
    assert t[..|t| - 1] == req.trc20;
    var f := Flatten(t);
    assert f[..|f| - 1] == Flatten(req.trc20);
  }

  /** An unregistered token entry, wherever it stands, adds no balance-map assignment. */
  lemma {:induction false} TokenEntriesSkipUnregistered(reg: Registry, kvs: seq<(string, Option<Decimal>)>, i: nat,
                                                        contract: string, amount: Option<Decimal>)
    requires i <= |kvs| && Lookup(reg, contract).None?
    ensures TokenEntries(reg, kvs[..i] + [(contract, amount)] + kvs[i..]) == TokenEntries(reg, kvs)
    decreases |kvs|
  {
    var t := kvs[..i] + [(contract, amount)] + kvs[i..];
    if i == |kvs| {
      assert t[..|t| - 1] == kvs;
    } else {
      var init := kvs[..|kvs| - 1];
      TokenEntriesSkipUnregistered(reg, init, i, contract, amount);
      assert t[..|t| - 1] == init[..i] + [(contract, amount)] + init[i..];
      assert t[|t| - 1] == kvs[|kvs| - 1];
    }
  }

  /**
   * An account that reports one more token entry, for an unregistered contract
   * and at any position of its token maps, has the same balance map.
   */
  lemma BalanceSkipsUnregistered(reg: Registry, req: GetAccountModel, more: GetAccountModel, i: nat,
                                 contract: string, amount: Option<Decimal>)
    requires Lookup(reg, contract).None? && more.balance == req.balance
    requires i <= |Flatten(req.trc20)|
    requires Flatten(more.trc20) == Flatten(req.trc20)[..i] + [(contract, amount)] + Flatten(req.trc20)[i..]
    ensures BalanceMap(reg, more) == BalanceMap(reg, req)
  {
    TokenEntriesSkipUnregistered(reg, Flatten(req.trc20), i, contract, amount);
  }

  /** The package-level state of pkg/client: `curIndex`, `ApiKeys` and `mapContract`. */
  class ClientPackage {
    var curIndex: nat
    var apiKeys: seq<string>
    var mapContract: Registry

    constructor (apiKeys: seq<string>)
      ensures this.curIndex == 0 && this.apiKeys == apiKeys && this.mapContract == map[]
    {
      curIndex := 0;
      this.apiKeys := apiKeys;
      mapContract := map[];
    }

    /** `InitContract`: inserts the descriptors one by one, stopping at the first unknown kind. */
    method InitContract(contracts: seq<ContractModel>) returns (err: Option<RegistryError>)
      modifies this`mapContract
      ensures (mapContract, err) == InitContractResult(old(mapContract), contracts)
    {
      var i := 0;
      while i < |contracts|
        invariant 0 <= i <= |contracts|
        invariant forall j :: 0 <= j < i ==> Recognised(contracts[j].typ)
        invariant mapContract == PutAll(old(mapContract), Entries(contracts[..i]))
      {
        var v := contracts[i];
        if Recognised(v.typ) {
          EntriesStep(contracts, i);
          mapContract := mapContract[v.contract := Some(v)];
        } else {
          FirstUnknownAt(contracts, i);
          return Some(UnknownContractType(v.typ));
        }
        i := i + 1;
      }
      FirstUnknownAt(contracts, i);
      assert contracts[..i] == contracts;
      return None;
    }

    /** `chargeContractObj`: the descriptor registered under `contract`, or nil. */
    function ChargeContractObj(contract: string): (r: Option<ContractModel>)
      reads this
      ensures contract in mapContract ==> r == mapContract[contract]
      ensures contract !in mapContract ==> r.None?
      // the descriptor is the one `chargeContract` classifies the address by
      ensures !IsNative(contract) && r.Some? && Recognised(r.value.typ) ==>
                ChargeContract(mapContract, contract) == Charge(r.value.typ, r.value.decimal)
    {
      if contract in mapContract then mapContract[contract] else None
    }

    /** `(*Client).getApiKey`: one atomic step of the round-robin rotation over `ApiKeys`. */
    method GetApiKey() returns (key: string)
      requires |apiKeys| > 0
      modifies this`curIndex
      ensures key == apiKeys[Clamp(old(curIndex), |apiKeys|)]
      ensures curIndex == Next(old(curIndex), |apiKeys|) && curIndex < |apiKeys|
    {
      var lens := |apiKeys|;
      if curIndex >= lens {
        curIndex := 0;
      }
      key := apiKeys[curIndex];
      curIndex := (curIndex + 1) % lens;
    }

    /** `GetTRXBalance`: the native balance and the registered token balances, by display name. */
    method GetTRXBalance(req: GetAccountModel) returns (balances: map<string, Decimal>)
      ensures balances == BalanceMap(mapContract, req)
      ensures Trx in balances
    {
      var base := map[Trx := NativeBalance(req.balance)];
      balances := base;
      var i := 0;
      while i < |req.trc20|
        invariant 0 <= i <= |req.trc20|
        invariant balances == PutAll(base, TokenEntries(mapContract, Flatten(req.trc20[..i])))
      {
        var v := req.trc20[i];
        var j := 0;
        assert Flatten(req.trc20[..i]) + v[..j] == Flatten(req.trc20[..i]);
        while j < |v|
          invariant 0 <= j <= |v|
          invariant balances == PutAll(base, TokenEntries(mapContract, Flatten(req.trc20[..i]) + v[..j]))
        {
          var (key, val) := v[j];
          var d := ChargeContractObj(key);
          ghost var done := Flatten(req.trc20[..i]) + v[..j];
          assert done + [v[j]] == Flatten(req.trc20[..i]) + v[..j + 1];
          assert (done + [v[j]])[..|done|] == done;
          if d.Some? {
            PutAllAppend(base, TokenEntries(mapContract, done), [(d.value.name, BalanceAccuracy(val, Neg32(d.value.decimal)))]);
            balances := balances[d.value.name := BalanceAccuracy(val, Neg32(d.value.decimal))];
          }
          j := j + 1;
        }
        assert v[..j] == v;
        assert req.trc20[..i + 1][..i] == req.trc20[..i];
        i := i + 1;
      }
      assert req.trc20[..i] == req.trc20;
      BalanceHasTrx(mapContract, req);
    }
  }
}
