/**
 * `KilnMultiversxClient`: the "/egld" client. Its stakes and rewards reads
 * send the caller's wallets under the key "delegators", its operations read
 * under "wallets"; its reports read is the shared validator template.
 */
module Multiversx {
  import opened Wrappers
  import opened Text
  import opened Query
  import opened Builder
  import opened Http

  const Prefix: string := "/egld"

  /** `From<&Kiln>`. */
  function From(k: Kiln): (c: Client)
    ensures c.baseUrl == k.baseUrl + "/egld"
    ensures ApiTokenOf(c.bearerToken) == Some(k.apiToken)
  {
    Derive(k, Prefix)
  }

  /** `MultiversxGetStakesRequest`. */
  datatype StakesRequest = StakesRequest(wallets: seq<string>, accounts: seq<Uuid>, validators: seq<string>)

  /** `get_stakes`: the wallets are sent as "delegators". */
  function Stakes(c: Client, q: StakesRequest): (r: Request)
    ensures r.accept == Json && r.authorization == c.bearerToken
    ensures Queries(r, c, "/stakes",
      [Param("validators", Csv(q.validators)), Param("delegators", Csv(q.wallets)), Param("accounts", Csv(q.accounts))])
  {
    Fetch(c, "/stakes",
      [Param("validators", Csv(q.validators)), Param("delegators", Csv(q.wallets)), Param("accounts", Csv(q.accounts))], Json)
  }

  /** `MultiversxRewardRequest`. */
  datatype RewardRequest = RewardRequest(
    wallets: seq<string>, accounts: seq<Uuid>, validators: seq<string>, startDate: DateTime, endDate: DateTime)

  /** `get_rewards`: the wallets are sent as "delegators". */
  function Rewards(c: Client, q: RewardRequest): (r: Request)
    ensures r.accept == Json && r.authorization == c.bearerToken
    ensures Queries(r, c, "/rewards",
      [Param("validators", Csv(q.validators)), Param("delegators", Csv(q.wallets)), Param("accounts", Csv(q.accounts)),
       Param("start_date", q.startDate), Param("end_date", q.endDate)])
  {
    Fetch(c, "/rewards",
      [Param("validators", Csv(q.validators)), Param("delegators", Csv(q.wallets)), Param("accounts", Csv(q.accounts)),
       Param("start_date", q.startDate), Param("end_date", q.endDate)], Json)
  }

  /** `MultiversxOperationsRequest`. */
  datatype OperationsRequest = OperationsRequest(
    wallets: seq<string>, accounts: seq<Uuid>, validators: seq<string>, startDate: DateTime, endDate: DateTime)

  /** `get_operations`: here the wallets keep their own key, and come first. */
  function Operations(c: Client, q: OperationsRequest): (r: Request)
    ensures r.accept == Json && r.authorization == c.bearerToken
    ensures Queries(r, c, "/operations",
      [Param("wallets", Csv(q.wallets)), Param("validators", Csv(q.validators)), Param("accounts", Csv(q.accounts)),
       Param("start_date", q.startDate), Param("end_date", q.endDate)])
  {
    Fetch(c, "/operations",
      [Param("wallets", Csv(q.wallets)), Param("validators", Csv(q.validators)), Param("accounts", Csv(q.accounts)),
       Param("start_date", q.startDate), Param("end_date", q.endDate)], Json)
  }

  /** `MultiversxOperationType`: one camel-case spelling per variant. */
  datatype OperationType =
    | AddNodes | ChangeOwner | ChangeServiceFee | GetAllNodeStates | ModifyTotalDelegationCap | RemoveNodes
    | RestakeUnstakedNodes | SetAutomaticActivation | SetCheckCapOnReDelegateRewards | SetMetaData
    | StakeNodes | SynchronizeOwner | UnBondNodes | UnJailNodes | Delegate | UnStakeNodes | WhitelistForMerge
    | UnDelegate | ClaimRewards | RedelegateRewards | Reward | Withdraw

  function OperationTypeName(t: OperationType): string
  {
    match t
    case AddNodes => "addNodes"
    case ChangeOwner => "changeOwner"
    case ChangeServiceFee => "changeServiceFee"
    case GetAllNodeStates => "getAllNodeStates"
    case ModifyTotalDelegationCap => "modifyTotalDelegationCap"
    case RemoveNodes => "removeNodes"
    case RestakeUnstakedNodes => "reStakeUnstakedNodes"
    case SetAutomaticActivation => "setAutomaticActivation"
    case SetCheckCapOnReDelegateRewards => "setCheckCapOnReDelegateRewards"
    case SetMetaData => "setMetaData"
    case StakeNodes => "stakeNodes"
    case SynchronizeOwner => "synchronizeOwner"
    case UnBondNodes => "unBondNodes"
    case UnJailNodes => "unJailNodes"
    case Delegate => "delegate"
    case UnStakeNodes => "unStakeNodes"
    case WhitelistForMerge => "whitelistForMerge"
    case UnDelegate => "undelegate"
    case ClaimRewards => "claimRewards"
    case RedelegateRewards => "reDelegateRewards"
    case Reward => "reward"
    case Withdraw => "withdraw"
  }

  /**
   * `MultiversxOperationType::from_str`: exactly the listed spellings, each to
   * its own variant. The comparisons are grouped by length, which changes
   * nothing in the result and keeps each group small.
   */
  function ParseOperationType(s: string): (r: Option<OperationType>)
    ensures r.Some? ==> OperationTypeName(r.value) == s
  {
    if |s| == 6 then
      if s == "reward" then Some(Reward)
      else None
    else if |s| == 8 then
      if s == "addNodes" then Some(AddNodes)
      else if s == "delegate" then Some(Delegate)
      else if s == "withdraw" then Some(Withdraw)
      else None
    else if |s| == 10 then
      if s == "stakeNodes" then Some(StakeNodes)
      else if s == "undelegate" then Some(UnDelegate)
      else None
    else if |s| == 11 then
      if s == "changeOwner" then Some(ChangeOwner)
      else if s == "removeNodes" then Some(RemoveNodes)
      else if s == "setMetaData" then Some(SetMetaData)
      else if s == "unBondNodes" then Some(UnBondNodes)
      else if s == "unJailNodes" then Some(UnJailNodes)
      else None
    else if |s| == 12 then
      if s == "unStakeNodes" then Some(UnStakeNodes)
      else if s == "claimRewards" then Some(ClaimRewards)
      else None
    else if |s| == 16 then
      if s == "changeServiceFee" then Some(ChangeServiceFee)
      else if s == "getAllNodeStates" then Some(GetAllNodeStates)
      else if s == "synchronizeOwner" then Some(SynchronizeOwner)
      else None
    else if |s| == 17 then
      if s == "whitelistForMerge" then Some(WhitelistForMerge)
      else if s == "reDelegateRewards" then Some(RedelegateRewards)
      else None
    else if |s| == 20 then
      if s == "reStakeUnstakedNodes" then Some(RestakeUnstakedNodes)
      else None
    else if |s| == 22 then
      if s == "setAutomaticActivation" then Some(SetAutomaticActivation)
      else None
    else if |s| == 24 then
      if s == "modifyTotalDelegationCap" then Some(ModifyTotalDelegationCap)
      else None
    else if |s| == 30 then
      if s == "setCheckCapOnReDelegateRewards" then Some(SetCheckCapOnReDelegateRewards)
      else None
    else None
  }

  /** Each variant's spelling parses back to it, so no two variants share one. */
  lemma OperationTypeRoundTrip(t: OperationType)
    ensures ParseOperationType(OperationTypeName(t)) == Some(t)
  {
  }
  /** `OperationTypeName` gives distinct operation types distinct names. */
  lemma OperationTypeNameInjective(a: OperationType, b: OperationType)
    ensures OperationTypeName(a) == OperationTypeName(b) <==> a == b
  {
    OperationTypeRoundTrip(a);
    OperationTypeRoundTrip(b);
  }


  /** The client's calls whose URL is a fixed path. */
  datatype Route =
    | NetworkStats

  function RouteEndpoint(route: Route): (e: Endpoint)
    ensures RouteOf(e) == Some(route)
  {
    match route
    case NetworkStats => Endpoint(Get, "/network-stats")
  }

  /** The server's routing table for these calls: the inverse of `RouteEndpoint`. */
  function RouteOf(e: Endpoint): Option<Route>
  {
    if e == Endpoint(Get, "/network-stats") then Some(NetworkStats)
    else None
  }

  /** A fixed-path call: with the JSON accept header and the token, and routed back to the same call. */
  function Call(c: Client, route: Route): (r: Request)
    ensures r.accept == Json && r.authorization == c.bearerToken
    ensures EndpointOf(r, c.baseUrl).Some? && RouteOf(EndpointOf(r, c.baseUrl).value) == Some(route)
  {
    var e := RouteEndpoint(route);
    Send(c, e.verb, e.path, Json)
  }
}
