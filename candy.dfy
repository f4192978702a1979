/** helpers/candy.ts (`createCandyMachine`): pick the candy machine code,
    check the collection address, the supply and the creator, instantiate
    the contract, and record it in the project data. */
module Candy {
  import opened Base
  import opened Records
  import opened Interfaces

  /** The role under which the new contract is recorded. */
  const CandyRole := "candy"
  /** The role naming the NFT collection the machine sells. */
  const CollectionRole := "collection"
  /** The network on which the contract code is uploaded first. */
  const LocalNetwork := "localterra"

  /** `candy_codeids`: the stored code id per network; any other network
      has none. */
  function StoredCodeId(network: string): Option<nat> {
    if network == "testnet" || network == "mainnet" then Some(0) else None
  }

  /** The instantiate message; `amount`, the supply and the token count
      travel as decimal strings. */
  datatype InitMsg = InitMsg(
    tokenAddr: string,
    creator: string,
    denom: string,
    amount: string,
    protocolFee: string,
    enableWhitelist: bool,
    collector: string,
    totalSupply: string,
    totalTokenCount: string)

  /** Why the command stops: a failed code upload, one of the three checks
      (`process.exit(-1)` after the message), no code id, or a failed
      instantiation. */
  datatype CandyError =
    | UploadFailed(reason: string)
    | InvalidCollection(collection: Option<string>)
    | InvalidSupply
    | InvalidCreator(creator: string)
    | NoCodeId(network: string)
    | InitFailed(reason: string)

  /** The outside calls: uploading the wasm code (its code id), validating an
      account address, and instantiating a contract (its address). */
  datatype Chain = Chain(
    uploadCode: Result<nat, string>,
    validAddress: string -> bool,
    init: (nat, InitMsg) -> Result<string, string>)

  /** The number of instructions the candy machine is to sell. */
  function CandyCount(instructions: seq<Instruction>): nat {
    if instructions == [] then 0
    else CandyCount(instructions[..|instructions| - 1]) + (if instructions[|instructions| - 1].owner == CandyRole then 1 else 0)
  }

  /** The creator: its alias in the address table when that is set,
      otherwise the argument as given. */
  function CreatorAddress(addresses: Obj<string>, creator: string): string {
    var alias := Get(addresses, creator);
    if alias.Some? && Truthy(alias.value) then alias.value else creator
  }

  /** The code id and instantiate message, or the first error. */
  function CandyPlan(
    instructions: seq<Instruction>, addresses: Obj<string>, network: string, creator: string,
    denom: string, amount: nat, enableWhitelist: bool, chain: Chain)
    : Result<(nat, InitMsg), CandyError>
  {
    var codeId: Result<Option<nat>, string> :=
      if network == LocalNetwork then
        (if chain.uploadCode.Ok? then Ok(Some(chain.uploadCode.value)) else Err(chain.uploadCode.error))
      else Ok(StoredCodeId(network));
    var collection := Get(addresses, CollectionRole);
    var supply := CandyCount(instructions);
    var creatorAddress := CreatorAddress(addresses, creator);
    if codeId.Err? then Err(UploadFailed(codeId.error))
    else if collection.None? || !Truthy(collection.value) || !chain.validAddress(collection.value) then
      Err(InvalidCollection(collection))
    else if supply == 0 then Err(InvalidSupply)
    else if !chain.validAddress(creatorAddress) then Err(InvalidCreator(creatorAddress))
    else if codeId.value.None? then Err(NoCodeId(network))
    else
      Ok((codeId.value.value,
          InitMsg(collection.value, creatorAddress, denom, DecimalString(amount), "0", enableWhitelist,
                  creatorAddress, DecimalString(supply), DecimalString(supply))))
  }

  /** The new contract's address and code id, or the error. */
  function CandyOutcome(
    instructions: seq<Instruction>, addresses: Obj<string>, network: string, creator: string,
    denom: string, amount: nat, enableWhitelist: bool, chain: Chain)
    : Result<(string, nat), CandyError>
  {
    match CandyPlan(instructions, addresses, network, creator, denom, amount, enableWhitelist, chain)
    case Err(e) => Err(e)
    case Ok((codeId, msg)) =>
      match chain.init(codeId, msg)
      case Err(e) => Err(InitFailed(e))
      case Ok(contractAddr) => Ok((contractAddr, codeId))
  }

  /** The part of `createCandyMachine` before the instantiation: the code
      id, the three checks and the message. */
  method PrepareCandyMachine(
    instructions: seq<Instruction>, addresses: Obj<string>, network: string, creator: string,
    denom: string, amount: nat, enableWhitelist: bool, chain: Chain)
    returns (plan: Result<(nat, InitMsg), CandyError>)
    ensures plan == CandyPlan(instructions, addresses, network, creator, denom, amount, enableWhitelist, chain)
  {
    var codeId: Option<nat>;
    if network == LocalNetwork {
      if chain.uploadCode.Err? {
        return Err(UploadFailed(chain.uploadCode.error));
      }
      codeId := Some(chain.uploadCode.value);
    } else {
      codeId := StoredCodeId(network);
    }
    var collectionAddress := Get(addresses, CollectionRole);
    if collectionAddress.None? || !Truthy(collectionAddress.value) || !chain.validAddress(collectionAddress.value) {
      return Err(InvalidCollection(collectionAddress));
    }
    var totalSupply := CandyCount(instructions);
    if totalSupply == 0 {
      return Err(InvalidSupply);
    }
    var creatorAddress := creator;
    var alias := Get(addresses, creator);
    if alias.Some? && Truthy(alias.value) {
      creatorAddress := alias.value;
    }
    if !chain.validAddress(creatorAddress) {
      return Err(InvalidCreator(creatorAddress));
    }
    if codeId.None? {
      return Err(NoCodeId(network));
    }
    plan := Ok((codeId.value, InitMsg(
      collectionAddress.value, creatorAddress, denom, DecimalString(amount), "0", enableWhitelist,
      creatorAddress, DecimalString(totalSupply), DecimalString(totalSupply))));
  }

  /** `createCandyMachine`: on success the contract is recorded under
      `candy` in the address and code id tables and the data is stamped
      with `now`; every other role keeps its address. On failure the data
      is untouched. */
  method CreateCandyMachine(
    instructions: seq<Instruction>, data: SoilData, network: string, creator: string,
    denom: string, amount: nat, enableWhitelist: bool, chain: Chain, now: Instant)
    returns (r: Result<(), CandyError>)
    modifies data
    ensures r.Ok? <==> CandyOutcome(instructions, old(data.addresses), network, creator, denom, amount, enableWhitelist, chain).Ok?
    ensures r.Err? ==> r.error == CandyOutcome(instructions, old(data.addresses), network, creator, denom, amount, enableWhitelist, chain).error
    ensures r.Err? ==> unchanged(data)
    ensures r.Ok? ==> data.network == old(data.network) && data.createdAt == old(data.createdAt) && data.updatedAt == now
    ensures r.Ok? ==>
      var o := CandyOutcome(instructions, old(data.addresses), network, creator, denom, amount, enableWhitelist, chain);
      && data.addresses == Put(old(data.addresses), CandyRole, o.value.0)
      && data.codeIds == Put(old(data.codeIds), CandyRole, o.value.1)
      && Get(data.addresses, CandyRole) == Some(o.value.0)
      && forall role :: role != CandyRole ==> Get(data.addresses, role) == Get(old(data.addresses), role)
  {
    var outcome := InstantiateCandyMachine(instructions, data.addresses, network, creator, denom, amount,
                                           enableWhitelist, chain);
    if outcome.Err? {
      return Err(outcome.error);
    }
    var contractAddr, codeId := outcome.value.0, outcome.value.1;
    RecordCandy(data.addresses, contractAddr);
    data.addresses := Put(data.addresses, CandyRole, contractAddr);
    data.codeIds := Put(data.codeIds, CandyRole, codeId);
    data.updatedAt := now;
    r := Ok(());
  }

  /** The plan, then the instantiation: the new contract's address and
      its code id, or the first error. */
  method InstantiateCandyMachine(
    instructions: seq<Instruction>, addresses: Obj<string>, network: string, creator: string,
    denom: string, amount: nat, enableWhitelist: bool, chain: Chain)
    returns (outcome: Result<(string, nat), CandyError>)
    ensures outcome == CandyOutcome(instructions, addresses, network, creator, denom, amount, enableWhitelist, chain)
  {
    var plan := PrepareCandyMachine(instructions, addresses, network, creator, denom, amount, enableWhitelist, chain);
    if plan.Err? {
      return Err(plan.error);
    }
    var codeId, msg := plan.value.0, plan.value.1;
    var initResponse := chain.init(codeId, msg);
    if initResponse.Err? {
      return Err(InitFailed(initResponse.error));
    }
    outcome := Ok((initResponse.value, codeId));
  }

  /** Recording the contract under `candy` leaves every other role as it
      was. */
  lemma RecordCandy(addresses: Obj<string>, contractAddr: string)
    ensures Get(Put(addresses, CandyRole, contractAddr), CandyRole) == Some(contractAddr)
    ensures forall role :: role != CandyRole ==> Get(Put(addresses, CandyRole, contractAddr), role) == Get(addresses, role)
  {
    PutGetSame(addresses, CandyRole, contractAddr);
    forall role | role != CandyRole
      ensures Get(Put(addresses, CandyRole, contractAddr), role) == Get(addresses, role)
    {
      PutGetOther(addresses, CandyRole, contractAddr, role);
    }
  }

  /** The supply counts the instructions owned by `candy`: it is zero
      exactly when there are none, never more than the instructions, and
      adds up over concatenation. */
  lemma {:induction false} CandyCountMeaning(instructions: seq<Instruction>)
    ensures CandyCount(instructions) <= |instructions|
    ensures CandyCount(instructions) == 0 <==> forall i :: 0 <= i < |instructions| ==> instructions[i].owner != CandyRole
  {
    if instructions != [] {
      var init := instructions[..|instructions| - 1];
      CandyCountMeaning(init);
      assert forall i :: 0 <= i < |init| ==> init[i] == instructions[i];
    }
  }

  lemma {:induction false} CandyCountAppend(a: seq<Instruction>, b: seq<Instruction>)
    ensures CandyCount(a + b) == CandyCount(a) + CandyCount(b)
    decreases |b|
  {
    if b != [] {
      CandyCountAppend(a, b[..|b| - 1]);
      assert (a + b)[..|a + b| - 1] == a + b[..|b| - 1];
    } else {
      assert a + b == a;
    }
  }

  /** The checks in full: the plan goes ahead exactly when the code is at
      hand, the collection address is set and valid, some instruction is
      owned by `candy` and the resolved creator is valid. It then sells
      the registered collection, names the creator as collector too, and
      states supply and token count both as the number of `candy`
      instructions, in decimal. */
  lemma PlanMeaning(
    instructions: seq<Instruction>, addresses: Obj<string>, network: string, creator: string,
    denom: string, amount: nat, enableWhitelist: bool, chain: Chain)
    ensures var p := CandyPlan(instructions, addresses, network, creator, denom, amount, enableWhitelist, chain);
      var collection := Get(addresses, CollectionRole);
      && (p.Ok? <==>
            && (if network == LocalNetwork then chain.uploadCode.Ok? else StoredCodeId(network).Some?)
            && collection.Some? && collection.value != "" && chain.validAddress(collection.value)
            && (exists i :: 0 <= i < |instructions| && instructions[i].owner == CandyRole)
            && chain.validAddress(CreatorAddress(addresses, creator)))
      && (p.Ok? ==>
            && p.value.0 == (if network == LocalNetwork then chain.uploadCode.value else 0)
            && p.value.1.tokenAddr == collection.value
            && p.value.1.creator == p.value.1.collector == CreatorAddress(addresses, creator)
            && p.value.1.totalSupply == p.value.1.totalTokenCount
            && ParseDecimal(p.value.1.totalSupply) == CandyCount(instructions) > 0
            && ParseDecimal(p.value.1.amount) == amount
            && p.value.1.protocolFee == "0")
  {
    CandyCountMeaning(instructions);
    DecimalRoundTrip(CandyCount(instructions));
    DecimalRoundTrip(amount);
  }

  /** The creator alias: a role name with an address resolves to it;
      anything else is taken as an address itself. */
  lemma CreatorResolution(addresses: Obj<string>, creator: string)
    ensures Get(addresses, creator).Some? && Get(addresses, creator).value != "" ==>
      exists i :: 0 <= i < |addresses| && addresses[i] == Entry(creator, CreatorAddress(addresses, creator))
    ensures (forall i :: 0 <= i < |addresses| ==> addresses[i].key != creator) ==> CreatorAddress(addresses, creator) == creator
  {
  }
}
