/**
 * `KilnSolanaClient`: the "/sol" client. Its rewards request has its own
 * two shapes (the daily one keyed by stake accounts and validators, the
 * epoch one keyed like the shared `RewardRequest` but with "stakes_addresses"
 * first), and three of its transaction calls sit directly under the base URL
 * rather than under "/transaction/".
 */
module Solana {
  import opened Wrappers
  import opened Text
  import opened Query
  import opened Builder
  import opened Http
  import opened Types

  const Prefix: string := "/sol"

  /** `From<&Kiln>`. */
  function From(k: Kiln): (c: Client)
    ensures c.baseUrl == k.baseUrl + "/sol"
    ensures ApiTokenOf(c.bearerToken) == Some(k.apiToken)
  {
    Derive(k, Prefix)
  }

  /** `SolanaGetStakesRequest`: stake accounts are typed as ids. */
  datatype StakesRequest = StakesRequest(stakeAccounts: seq<Uuid>, validators: seq<string>, wallets: seq<string>, accounts: seq<Uuid>)

  /** `get_stakes`. */
  function Stakes(c: Client, q: StakesRequest): (r: Request)
    ensures r.accept == Json && r.authorization == c.bearerToken
    ensures Queries(r, c, "/stakes",
      [Param("validators", Csv(q.validators)), Param("stake_accounts", Csv(q.stakeAccounts)),
       Param("accounts", Csv(q.accounts)), Param("wallets", Csv(q.wallets))])
  {
    Fetch(c, "/stakes",
      [Param("validators", Csv(q.validators)), Param("stake_accounts", Csv(q.stakeAccounts)),
       Param("accounts", Csv(q.accounts)), Param("wallets", Csv(q.wallets))], Json)
  }

  /** `SolanaRewardRequest`. */
  datatype RewardRequest =
    | DailyRewards(stakesAccounts: seq<string>, validators: seq<string>, wallets: seq<string>, accounts: seq<Uuid>,
                   format: ResponseFormat, startDate: DateTime, endDate: DateTime, includeUsd: bool)
    | EpochRewards(stakesAddresses: seq<string>, wallets: seq<string>, poolIds: seq<string>, accounts: seq<Uuid>,
                   format: ResponseFormat, startDate: DateTime, endDate: DateTime, startEpoch: U64, endEpoch: U64)

  /** `get_rewards`: the two shapes share only accounts, format and the dates; only the daily one has include_usd. */
  function Rewards(c: Client, q: RewardRequest): (r: Request)
    ensures r.accept == Json && r.authorization == c.bearerToken
    ensures q.DailyRewards? ==> Queries(r, c, "/rewards",
      [Param("stake_accounts", Csv(q.stakesAccounts)), Param("validators", Csv(q.validators)),
       Param("wallets", Csv(q.wallets)), Param("accounts", Csv(q.accounts)), Param("format", FormatText(q.format)),
       Param("start_date", q.startDate), Param("end_date", q.endDate), Param("include_usd", BoolToString(q.includeUsd))])
    ensures q.EpochRewards? ==> Queries(r, c, "/rewards",
      [Param("stakes_addresses", Csv(q.stakesAddresses)), Param("wallets", Csv(q.wallets)),
       Param("pool_ids", Csv(q.poolIds)), Param("accounts", Csv(q.accounts)), Param("format", FormatText(q.format)),
       Param("start_date", q.startDate), Param("end_date", q.endDate),
       Param("start_epoch", NatToString(q.startEpoch)), Param("end_epoch", NatToString(q.endEpoch))])
  {
    match q
    case DailyRewards(stakesAccounts, validators, wallets, accounts, format, startDate, endDate, includeUsd) =>
      Fetch(c, "/rewards",
        [Param("stake_accounts", Csv(stakesAccounts)), Param("validators", Csv(validators)),
         Param("wallets", Csv(wallets)), Param("accounts", Csv(accounts)), Param("format", FormatText(format)),
         Param("start_date", startDate), Param("end_date", endDate), Param("include_usd", BoolToString(includeUsd))], Json)
    case EpochRewards(stakesAddresses, wallets, poolIds, accounts, format, startDate, endDate, startEpoch, endEpoch) =>
      Fetch(c, "/rewards",
        [Param("stakes_addresses", Csv(stakesAddresses)), Param("wallets", Csv(wallets)),
         Param("pool_ids", Csv(poolIds)), Param("accounts", Csv(accounts)), Param("format", FormatText(format)),
         Param("start_date", startDate), Param("end_date", endDate),
         Param("start_epoch", NatToString(startEpoch)), Param("end_epoch", NatToString(endEpoch))], Json)
  }

  /** `SolanaOperationsRequest`. */
  datatype OperationsRequest = OperationsRequest(
    stakeAccounts: seq<Uuid>, wallets: seq<string>, accounts: seq<Uuid>, startDate: DateTime, endDate: DateTime)

  /** `get_operations`. */
  function Operations(c: Client, q: OperationsRequest): (r: Request)
    ensures r.accept == Json && r.authorization == c.bearerToken
    ensures Queries(r, c, "/operations",
      [Param("stake_accounts", Csv(q.stakeAccounts)), Param("wallets", Csv(q.wallets)), Param("accounts", Csv(q.accounts)),
       Param("start_date", q.startDate), Param("end_date", q.endDate)])
  {
    Fetch(c, "/operations",
      [Param("stake_accounts", Csv(q.stakeAccounts)), Param("wallets", Csv(q.wallets)), Param("accounts", Csv(q.accounts)),
       Param("start_date", q.startDate), Param("end_date", q.endDate)], Json)
  }

  /** `SolanaReportsRequest`. */
  datatype ReportsRequest = ReportsRequest(stakeAccounts: seq<Uuid>, accounts: seq<Uuid>, wallets: seq<string>)

  /** `get_reports`: a binary download. */
  function Reports(c: Client, q: ReportsRequest): (r: Request)
    ensures r.accept == OctetStream && r.authorization == c.bearerToken
    ensures Queries(r, c, "/reports",
      [Param("stake_accounts", Csv(q.stakeAccounts)), Param("accounts", Csv(q.accounts)), Param("wallets", Csv(q.wallets))])
  {
    Fetch(c, "/reports",
      [Param("stake_accounts", Csv(q.stakeAccounts)), Param("accounts", Csv(q.accounts)), Param("wallets", Csv(q.wallets))], OctetStream)
  }

  /** The client's calls whose URL is a fixed path. */
  datatype Route =
    | PostStakes | NetworkStats | NonceAccount
    | StakeTx | DeactivateStakeTx | WithdrawStakeTx | MergeStakeTx | SplitStakeTx
    | PrepareTx | BroadcastTx

  function RouteEndpoint(route: Route): (e: Endpoint)
    ensures RouteOf(e) == Some(route)
  {
    match route
    case PostStakes => Endpoint(Post, "/stakes")
    case NetworkStats => Endpoint(Get, "/network-stats")
    case NonceAccount => Endpoint(Get, "/nonce-account")
    case StakeTx => Endpoint(Post, "/transaction/stake")
    case DeactivateStakeTx => Endpoint(Post, "/transaction/deactivate-stake")
    case WithdrawStakeTx => Endpoint(Post, "/withdraw-stake")
    case MergeStakeTx => Endpoint(Post, "/merge-stake")
    case SplitStakeTx => Endpoint(Post, "/split-stake")
    case PrepareTx => Endpoint(Post, "/transaction/prepare")
    case BroadcastTx => Endpoint(Post, "/transaction/broadcast")
  }

  /** The server's routing table for these calls: the inverse of `RouteEndpoint`. */
  function RouteOf(e: Endpoint): Option<Route>
  {
    if e == Endpoint(Post, "/stakes") then Some(PostStakes)
    else if e == Endpoint(Get, "/network-stats") then Some(NetworkStats)
    else if e == Endpoint(Get, "/nonce-account") then Some(NonceAccount)
    else if e == Endpoint(Post, "/transaction/stake") then Some(StakeTx)
    else if e == Endpoint(Post, "/transaction/deactivate-stake") then Some(DeactivateStakeTx)
    else if e == Endpoint(Post, "/withdraw-stake") then Some(WithdrawStakeTx)
    else if e == Endpoint(Post, "/merge-stake") then Some(MergeStakeTx)
    else if e == Endpoint(Post, "/split-stake") then Some(SplitStakeTx)
    else if e == Endpoint(Post, "/transaction/prepare") then Some(PrepareTx)
    else if e == Endpoint(Post, "/transaction/broadcast") then Some(BroadcastTx)
    else None
  }

  /** A fixed-path call: with the JSON accept header and the token, and routed back to the same call. */
  function Call(c: Client, route: Route): (r: Request)
    ensures r.accept == Json && r.authorization == c.bearerToken
    ensures EndpointOf(r, c.baseUrl).Some? && RouteOf(EndpointOf(r, c.baseUrl).value) == Some(route)
  {
    var e := RouteEndpoint(route);
    Send(c, e.verb, e.path, Json)
  }
}
