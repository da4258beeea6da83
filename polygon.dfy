/**
 * `KilnPolygonClient`: the "/pol" client. Rewards use the shared
 * `RewardRequest` template; the unstake transaction's slug mixes a hyphen
 * and an underscore.
 */
module Polygon {
  import opened Wrappers
  import opened Text
  import opened Query
  import opened Builder
  import opened Http

  const Prefix: string := "/pol"

  /** `From<&Kiln>`. */
  function From(k: Kiln): (c: Client)
    ensures c.baseUrl == k.baseUrl + "/pol"
    ensures ApiTokenOf(c.bearerToken) == Some(k.apiToken)
  {
    Derive(k, Prefix)
  }

  /** `PolygonTxStatus`: one strum spelling per variant. */
  datatype TxStatus = Success | Error | PendingConfirmation

  function TxStatusName(s: TxStatus): string
  {
    match s
    case Success => "success"
    case Error => "error"
    case PendingConfirmation => "pending_confirmation"
  }

  /** `PolygonTxStatus::from_str`: exactly the three names, each to its own variant. */
  function ParseTxStatus(s: string): (r: Option<TxStatus>)
    ensures r.Some? ==> TxStatusName(r.value) == s
    ensures forall v :: TxStatusName(v) == s ==> r == Some(v)
  {
    if s == "success" then Some(Success)
    else if s == "error" then Some(Error)
    else if s == "pending_confirmation" then Some(PendingConfirmation)
    else None
  }
  /** `TxStatusName` gives distinct statuses distinct names. */
  lemma TxStatusNameInjective(a: TxStatus, b: TxStatus)
    ensures TxStatusName(a) == TxStatusName(b) <==> a == b
  {
    assert ParseTxStatus(TxStatusName(a)) == Some(a) && ParseTxStatus(TxStatusName(b)) == Some(b);
  }


  /** `PolygonGetStakesRequest`. */
  datatype StakesRequest = StakesRequest(wallets: seq<string>, accounts: seq<Uuid>, validators: seq<string>)

  /** `get_stakes`. */
  function Stakes(c: Client, q: StakesRequest): (r: Request)
    ensures r.accept == Json && r.authorization == c.bearerToken
    ensures Queries(r, c, "/stakes",
      [Param("validators", Csv(q.validators)), Param("wallets", Csv(q.wallets)), Param("accounts", Csv(q.accounts))])
  {
    Fetch(c, "/stakes",
      [Param("validators", Csv(q.validators)), Param("wallets", Csv(q.wallets)), Param("accounts", Csv(q.accounts))], Json)
  }

  /** `PolygonOperationsRequest`. */
  datatype OperationsRequest = OperationsRequest(
    wallets: seq<string>, validatorIndexes: seq<string>, accounts: seq<Uuid>, startDate: DateTime, endDate: DateTime)

  /** `get_operations`. */
  function Operations(c: Client, q: OperationsRequest): (r: Request)
    ensures r.accept == Json && r.authorization == c.bearerToken
    ensures Queries(r, c, "/operations",
      [Param("wallets", Csv(q.wallets)), Param("validator_indexes", Csv(q.validatorIndexes)), Param("accounts", Csv(q.accounts)),
       Param("start_date", q.startDate), Param("end_date", q.endDate)])
  {
    Fetch(c, "/operations",
      [Param("wallets", Csv(q.wallets)), Param("validator_indexes", Csv(q.validatorIndexes)), Param("accounts", Csv(q.accounts)),
       Param("start_date", q.startDate), Param("end_date", q.endDate)], Json)
  }

  /** `PolygonReportsRequest`. */
  datatype ReportsRequest = ReportsRequest(validatorIndexes: seq<string>, wallets: seq<string>, accounts: seq<Uuid>)

  /** `get_reports`: a binary download. */
  function Reports(c: Client, q: ReportsRequest): (r: Request)
    ensures r.accept == OctetStream && r.authorization == c.bearerToken
    ensures Queries(r, c, "/reports",
      [Param("validator_indexes", Csv(q.validatorIndexes)), Param("wallets", Csv(q.wallets)), Param("accounts", Csv(q.accounts))])
  {
    Fetch(c, "/reports",
      [Param("validator_indexes", Csv(q.validatorIndexes)), Param("wallets", Csv(q.wallets)), Param("accounts", Csv(q.accounts))], OctetStream)
  }

  /** The client's calls whose URL is a fixed path. */
  datatype Route =
    | PostStakes | NetworkStats
    | ApproveTx | BuyVoucherTx | SellVoucherTx | UnstakeClaimTokensTx | WithdrawRewardsTx | RestakeRewardsTx
    | PrepareTx | BroadcastTx

  function RouteEndpoint(route: Route): (e: Endpoint)
    ensures RouteOf(e) == Some(route)
  {
    match route
    case PostStakes => Endpoint(Post, "/stakes")
    case NetworkStats => Endpoint(Get, "/network-stats")
    case ApproveTx => Endpoint(Post, "/transaction/approve")
    case BuyVoucherTx => Endpoint(Post, "/transaction/buy-voucher")
    case SellVoucherTx => Endpoint(Post, "/transaction/sell-voucher")
    case UnstakeClaimTokensTx => Endpoint(Post, "/transaction/unstake-claim_tokens")
    case WithdrawRewardsTx => Endpoint(Post, "/transaction/withdraw-rewards")
    case RestakeRewardsTx => Endpoint(Post, "/transaction/restake-rewards")
    case PrepareTx => Endpoint(Post, "/transaction/prepare")
    case BroadcastTx => Endpoint(Post, "/transaction/broadcast")
  }

  /** The server's routing table for these calls: the inverse of `RouteEndpoint`. */
  function RouteOf(e: Endpoint): Option<Route>
  {
    if e == Endpoint(Post, "/stakes") then Some(PostStakes)
    else if e == Endpoint(Get, "/network-stats") then Some(NetworkStats)
    else if e == Endpoint(Post, "/transaction/approve") then Some(ApproveTx)
    else if e == Endpoint(Post, "/transaction/buy-voucher") then Some(BuyVoucherTx)
    else if e == Endpoint(Post, "/transaction/sell-voucher") then Some(SellVoucherTx)
    else if e == Endpoint(Post, "/transaction/unstake-claim_tokens") then Some(UnstakeClaimTokensTx)
    else if e == Endpoint(Post, "/transaction/withdraw-rewards") then Some(WithdrawRewardsTx)
    else if e == Endpoint(Post, "/transaction/restake-rewards") then Some(RestakeRewardsTx)
    else if e == Endpoint(Post, "/transaction/prepare") then Some(PrepareTx)
    else if e == Endpoint(Post, "/transaction/broadcast") then Some(BroadcastTx)
    else None
  }

  /** A fixed-path call: with the JSON accept header and the token, and routed back to the same call. */
  function Call(c: Client, route: Route): (r: Request)
    ensures r.accept == Json && r.authorization == c.bearerToken
    ensures EndpointOf(r, c.baseUrl).Some? && RouteOf(EndpointOf(r, c.baseUrl).value) == Some(route)
  {
    var e := RouteEndpoint(route);
    Send(c, e.verb, e.path, Json)
  }

  /** The all-hyphen spelling of the unstake slug is not a route of this client. */
  lemma UnstakeSlugIsLiteral()
    ensures RouteOf(Endpoint(Post, "/transaction/unstake-claim-tokens")) == None
    ensures RouteOf(Endpoint(Post, "/transaction/unstake-claim_tokens")) == Some(UnstakeClaimTokensTx)
  {
  }
}
