/**
 * `KilnDefiClient`: the "/defi" client. Its stakes read filters by wallets
 * and vaults; its operations and network-stats reads take no parameter.
 */
module Defi {
  import opened Wrappers
  import opened Text
  import opened Query
  import opened Builder
  import opened Http

  const Prefix: string := "/defi"

  /** `From<&Kiln>`. */
  function From(k: Kiln): (c: Client)
    ensures c.baseUrl == k.baseUrl + "/defi"
    ensures ApiTokenOf(c.bearerToken) == Some(k.apiToken)
  {
    Derive(k, Prefix)
  }

  /** `stakes`. */
  function Stakes(c: Client, wallets: seq<string>, vaults: seq<string>): (r: Request)
    ensures r.accept == Json && r.authorization == c.bearerToken
    ensures Queries(r, c, "/stakes", [Param("wallets", Csv(wallets)), Param("vaults", Csv(vaults))])
  {
    Fetch(c, "/stakes", [Param("wallets", Csv(wallets)), Param("vaults", Csv(vaults))], Json)
  }

  /** A list holding one empty wallet sends the same request as no wallet at all. */
  lemma EmptyWalletIsNoWallet(c: Client, vaults: seq<string>)
    ensures Stakes(c, [""], vaults) == Stakes(c, [], vaults)
  {
    JoinNotInjective(',');
  }

  /** The client's calls whose URL is a fixed path. */
  datatype Route =
    | Operations | NetworkStats

  function RouteEndpoint(route: Route): (e: Endpoint)
    ensures RouteOf(e) == Some(route)
  {
    match route
    case Operations => Endpoint(Get, "/operations")
    case NetworkStats => Endpoint(Get, "/network-stats")
  }

  /** The server's routing table for these calls: the inverse of `RouteEndpoint`. */
  function RouteOf(e: Endpoint): Option<Route>
  {
    if e == Endpoint(Get, "/operations") then Some(Operations)
    else if e == Endpoint(Get, "/network-stats") then Some(NetworkStats)
    else None
  }

  /** A fixed-path call: with the JSON accept header and the token, and routed back to the same call. */
  function Call(c: Client, route: Route): (r: Request)
    ensures r.accept == Json && r.authorization == c.bearerToken
    ensures EndpointOf(r, c.baseUrl).Some? && RouteOf(EndpointOf(r, c.baseUrl).value) == Some(route)
  {
    var e := RouteEndpoint(route);
    Send(c, e.verb, e.path, Json)
  }
}
