/**
 * `KilnDydxClient`: the "/dydx" client. Its stakes, rewards, operations
 * (`DydxOperationsRequest` is field for field the shared validator
 * operations request), reports, status and decode reads are the shared
 * templates of `Shared` under this prefix; its enums print and parse as the
 * shared tables of `Types` do. What is its own is the set of fixed-path
 * calls, among them the balance query and the transfer to Noble.
 */
module Dydx {
  import opened Wrappers
  import opened Builder
  import opened Http

  const Prefix: string := "/dydx"

  /** `From<&Kiln>`. */
  function From(k: Kiln): (c: Client)
    ensures c.baseUrl == k.baseUrl + "/dydx"
    ensures ApiTokenOf(c.bearerToken) == Some(k.apiToken)
  {
    Derive(k, Prefix)
  }

  /** The client's calls whose URL is a fixed path. */
  datatype Route =
    | PostStakes | NetworkStats | Balance | StakeTx | WithdrawRewardsTx | UnstakeTx | RedelegateTx
    | NobleIbcTransferTx | PrepareTx | BroadcastTx

  function RouteEndpoint(route: Route): (e: Endpoint)
    ensures RouteOf(e) == Some(route)
  {
    match route
    case PostStakes => Endpoint(Post, "/stakes")
    case NetworkStats => Endpoint(Get, "/network-stats")
    case Balance => Endpoint(Post, "/balance")
    case StakeTx => Endpoint(Post, "/transaction/stake")
    case WithdrawRewardsTx => Endpoint(Post, "/transaction/withdraw-rewards")
    case UnstakeTx => Endpoint(Post, "/transaction/unstake")
    case RedelegateTx => Endpoint(Post, "/transaction/redelegate")
    case NobleIbcTransferTx => Endpoint(Post, "/transaction/noble-ibc-transfer")
    case PrepareTx => Endpoint(Post, "/transaction/prepare")
    case BroadcastTx => Endpoint(Post, "/transaction/broadcast")
  }

  /** The server's routing table for these calls: the inverse of `RouteEndpoint`. */
  function RouteOf(e: Endpoint): Option<Route>
  {
    if e == Endpoint(Post, "/stakes") then Some(PostStakes)
    else if e == Endpoint(Get, "/network-stats") then Some(NetworkStats)
    else if e == Endpoint(Post, "/balance") then Some(Balance)
    else if e == Endpoint(Post, "/transaction/stake") then Some(StakeTx)
    else if e == Endpoint(Post, "/transaction/withdraw-rewards") then Some(WithdrawRewardsTx)
    else if e == Endpoint(Post, "/transaction/unstake") then Some(UnstakeTx)
    else if e == Endpoint(Post, "/transaction/redelegate") then Some(RedelegateTx)
    else if e == Endpoint(Post, "/transaction/noble-ibc-transfer") then Some(NobleIbcTransferTx)
    else if e == Endpoint(Post, "/transaction/prepare") then Some(PrepareTx)
    else if e == Endpoint(Post, "/transaction/broadcast") then Some(BroadcastTx)
    else None
  }

  /** A fixed-path call: with the JSON accept header and the token, and routed back to the same call. */
  function Call(c: Client, route: Route): (r: Request)
    ensures r.accept == Json && r.authorization == c.bearerToken
    ensures EndpointOf(r, c.baseUrl).Some? && RouteOf(EndpointOf(r, c.baseUrl).value) == Some(route)
  {
    var e := RouteEndpoint(route);
    Send(c, e.verb, e.path, Json)
  }
}
