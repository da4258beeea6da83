/**
 * `KilnNearClient`: the "/near" client. It has no status read; its reports
 * read carries the response format.
 */
module Near {
  import opened Wrappers
  import opened Text
  import opened Query
  import opened Builder
  import opened Http
  import opened Types

  const Prefix: string := "/near"

  /** `From<&Kiln>`. */
  function From(k: Kiln): (c: Client)
    ensures c.baseUrl == k.baseUrl + "/near"
    ensures ApiTokenOf(c.bearerToken) == Some(k.apiToken)
  {
    Derive(k, Prefix)
  }

  /** `NearGetStakesRequest`. */
  datatype StakesRequest = StakesRequest(stakeAccounts: seq<Uuid>, validators: seq<string>, wallets: seq<string>, accounts: seq<Uuid>)

  /** `get_stakes`: validators first, wallets last. */
  function Stakes(c: Client, q: StakesRequest): (r: Request)
    ensures r.accept == Json && r.authorization == c.bearerToken
    ensures Queries(r, c, "/stakes",
      [Param("validators", Csv(q.validators)), Param("stake_accounts", Csv(q.stakeAccounts)),
       Param("accounts", Csv(q.accounts)), Param("wallets", Csv(q.wallets))])
  {
    Fetch(c, "/stakes",
      [Param("validators", Csv(q.validators)), Param("stake_accounts", Csv(q.stakeAccounts)),
       Param("accounts", Csv(q.accounts)), Param("wallets", Csv(q.wallets))], Json)
  }

  /** `NearOperationsRequest`. */
  datatype OperationsRequest = OperationsRequest(
    stakeAccounts: seq<Uuid>, wallets: seq<string>, accounts: seq<Uuid>, startDate: DateTime, endDate: DateTime)

  /** `get_operations`. */
  function Operations(c: Client, q: OperationsRequest): (r: Request)
    ensures r.accept == Json && r.authorization == c.bearerToken
    ensures Queries(r, c, "/operations",
      [Param("stake_accounts", Csv(q.stakeAccounts)), Param("accounts", Csv(q.accounts)), Param("wallets", Csv(q.wallets)),
       Param("start_date", q.startDate), Param("end_date", q.endDate)])
  {
    Fetch(c, "/operations",
      [Param("stake_accounts", Csv(q.stakeAccounts)), Param("accounts", Csv(q.accounts)), Param("wallets", Csv(q.wallets)),
       Param("start_date", q.startDate), Param("end_date", q.endDate)], Json)
  }

  /** `NearReportsRequest`. */
  datatype ReportsRequest = ReportsRequest(stakeAccounts: seq<Uuid>, accounts: seq<Uuid>, wallets: seq<string>, format: ResponseFormat)

  /** `get_reports`: a binary download. */
  function Reports(c: Client, q: ReportsRequest): (r: Request)
    ensures r.accept == OctetStream && r.authorization == c.bearerToken
    ensures Queries(r, c, "/reports",
      [Param("stake_accounts", Csv(q.stakeAccounts)), Param("accounts", Csv(q.accounts)), Param("wallets", Csv(q.wallets)),
       Param("format", FormatText(q.format))])
  {
    Fetch(c, "/reports",
      [Param("stake_accounts", Csv(q.stakeAccounts)), Param("accounts", Csv(q.accounts)), Param("wallets", Csv(q.wallets)),
       Param("format", FormatText(q.format))], OctetStream)
  }

  /** The client's calls whose URL is a fixed path. */
  datatype Route =
    | PostStakes | NetworkStats | StakeTx | UnstakeTx | WithdrawRewardsTx | PrepareTx | BroadcastTx

  function RouteEndpoint(route: Route): (e: Endpoint)
    ensures RouteOf(e) == Some(route)
  {
    match route
    case PostStakes => Endpoint(Post, "/stakes")
    case NetworkStats => Endpoint(Get, "/network-stats")
    case StakeTx => Endpoint(Post, "/transaction/stake")
    case UnstakeTx => Endpoint(Post, "/transaction/unstake")
    case WithdrawRewardsTx => Endpoint(Post, "/transaction/withdraw-rewards")
    case PrepareTx => Endpoint(Post, "/transaction/prepare")
    case BroadcastTx => Endpoint(Post, "/transaction/broadcast")
  }

  /** The server's routing table for these calls: the inverse of `RouteEndpoint`. */
  function RouteOf(e: Endpoint): Option<Route>
  {
    if e == Endpoint(Post, "/stakes") then Some(PostStakes)
    else if e == Endpoint(Get, "/network-stats") then Some(NetworkStats)
    else if e == Endpoint(Post, "/transaction/stake") then Some(StakeTx)
    else if e == Endpoint(Post, "/transaction/unstake") then Some(UnstakeTx)
    else if e == Endpoint(Post, "/transaction/withdraw-rewards") then Some(WithdrawRewardsTx)
    else if e == Endpoint(Post, "/transaction/prepare") then Some(PrepareTx)
    else if e == Endpoint(Post, "/transaction/broadcast") then Some(BroadcastTx)
    else None
  }

  /** A fixed-path call: with the JSON accept header and the token, and routed back to the same call. */
  function Call(c: Client, route: Route): (r: Request)
    ensures r.accept == Json && r.authorization == c.bearerToken
    ensures EndpointOf(r, c.baseUrl).Some? && RouteOf(EndpointOf(r, c.baseUrl).value) == Some(route)
  {
    var e := RouteEndpoint(route);
    Send(c, e.verb, e.path, Json)
  }
}
