/** The staking hooks of `src/hooks/contracts.ts`: which escrow-contract call,
    if any, each hook hands to the wallet, with which arguments and attached
    value. The contract, the wallet's simulation and `parseEther` are outside
    the model: the contract is a sink for calls, a simulation either yields a
    request or not, and an ether amount arrives already converted to wei. */
module Staking {
  import opened Options

  /** The fixed escrow provider and user id `useStake` sends. */
  const EscrowProvider := "0x1234567890abcdef1234567890abcdef12345678"
  const EscrowUserId := "0xA0Cf798816D4b9b9866b5330EEa46a18382f251e"

  const WeiPerEther: nat := 1_000_000_000_000_000_000

  /** `parseEther("0.01")`: one hundredth of an ether, 10^16 wei. */
  const StakeValueWei: nat := 10_000_000_000_000_000

  datatype Arg = AddressArg(address: string) | UintArg(amount: nat)

  /** A contract call handed to the wallet: function name, arguments and the
      value attached, in wei. */
  datatype ContractCall = ContractCall(functionName: string, args: seq<Arg>, value: nat)

  /** JavaScript truthiness of an optional string: present and non-empty. */
  predicate Present(s: Option<string>) {
    s.Some? && s.value != ""
  }

  /** `useStake().stakeFn` for the connected address: nothing without an
      address, otherwise `createEscrow(provider, userId)` carrying 0.01 ether. */
  function StakeFn(address: Option<string>): (r: Option<ContractCall>)
    ensures r.None? <==> !Present(address)
    ensures r.Some? ==> r.value.functionName == "createEscrow"
    ensures r.Some? ==> r.value.args == [AddressArg(EscrowProvider), AddressArg(EscrowUserId)]
    ensures r.Some? ==> r.value.value * 100 == WeiPerEther
  {
    // the `!userId` half of the guard tests a non-empty constant and never fires
    if !Present(address) || !Present(Some(EscrowUserId)) then None
    else Some(ContractCall("createEscrow", [AddressArg(EscrowProvider), AddressArg(EscrowUserId)], StakeValueWei))
  }

  /** The call `usePullStake` asks the wallet to simulate, for an amount
      already converted to wei. */
  function PullConfig(amountWei: nat): ContractCall {
    ContractCall("pullEscrow", [UintArg(amountWei)], 0)
  }

  /** The call `useEmptyStake` asks the wallet to simulate: no arguments. */
  const EmptyConfig := ContractCall("emptyEscrow", [], 0)

  /** The `enabled` flag of the pull simulation. */
  function PullEnabled(address: Option<string>, userId: Option<string>, amount: real): (r: bool)
    ensures r <==> Present(address) && Present(userId) && amount > 0.0
    ensures r ==> amount > 0.0
    ensures !Present(address) || !Present(userId) ==> !r
  {
    Present(address) && Present(userId) && amount > 0.0
  }

  /** The `enabled` flag of the empty-escrow simulation. */
  function EmptyEnabled(address: Option<string>, userId: Option<string>): bool {
    Present(address) && Present(userId)
  }

  /** What a simulation yields: the configured request when the query is
      enabled and the wallet accepts it; nothing when it is disabled. */
  function Simulate(enabled: bool, config: ContractCall, accepted: bool): (r: Option<ContractCall>)
    ensures r.Some? <==> enabled && accepted
    ensures r.Some? ==> r.value == config
  {
    if enabled && accepted then Some(config) else None
  }

  /** `pullStakeFn` / `emptyStakeFn`: write the simulated request, and only it,
      when address, stored user id and a simulated request all exist. */
  function WriteSimulated(address: Option<string>, userId: Option<string>, simulated: Option<ContractCall>): (r: Option<ContractCall>)
    ensures r.Some? <==> Present(address) && Present(userId) && simulated.Some?
    ensures r.Some? ==> r == simulated
  {
    if !Present(address) || !Present(userId) || simulated.None? then None else simulated
  }

  /** The whole pull path: a pull write reaches the wallet only for a positive
      amount with address and user id present, and it is exactly the
      configured `pullEscrow` call. A non-positive amount is stopped before the
      simulation runs. */
  lemma PullWritesOnlyPositiveAmounts(address: Option<string>, userId: Option<string>, amount: real,
                                      amountWei: nat, accepted: bool)
    ensures var sim := Simulate(PullEnabled(address, userId, amount), PullConfig(amountWei), accepted);
            var w := WriteSimulated(address, userId, sim);
            && (amount <= 0.0 ==> sim.None? && w.None?)
            && (w.Some? <==> Present(address) && Present(userId) && amount > 0.0 && accepted)
            && (w.Some? ==> w.value == PullConfig(amountWei))
  {
  }

  /** The empty-escrow path: its write guard is the simulation's enable
      condition, and what is written is the argument-less `emptyEscrow` call. */
  lemma EmptyWriteMatchesEnable(address: Option<string>, userId: Option<string>, accepted: bool)
    ensures var sim := Simulate(EmptyEnabled(address, userId), EmptyConfig, accepted);
            var w := WriteSimulated(address, userId, sim);
            && (w.Some? <==> EmptyEnabled(address, userId) && accepted)
            && (w.Some? ==> w.value.functionName == "emptyEscrow" && w.value.args == [])
  {
  }
}
