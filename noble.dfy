/**
 * `KilnNobleClient`: the "/noble" client: a balance query, two transfer
 * transactions, and the shared prepare, broadcast, status and decode calls.
 */
module Noble {
  import opened Wrappers
  import opened Builder
  import opened Http

  const Prefix: string := "/noble"

  /** `From<&Kiln>`. */
  function From(k: Kiln): (c: Client)
    ensures c.baseUrl == k.baseUrl + "/noble"
    ensures ApiTokenOf(c.bearerToken) == Some(k.apiToken)
  {
    Derive(k, Prefix)
  }

  /** The client's calls whose URL is a fixed path. */
  datatype Route =
    | Balance | BurnUsdcTx | OsmoIbcTransferTx | PrepareTx | BroadcastTx

  function RouteEndpoint(route: Route): (e: Endpoint)
    ensures RouteOf(e) == Some(route)
  {
    match route
    case Balance => Endpoint(Post, "/balance")
    case BurnUsdcTx => Endpoint(Post, "/transaction/burn-usdc")
    case OsmoIbcTransferTx => Endpoint(Post, "/transaction/osmo-ibc-transfer")
    case PrepareTx => Endpoint(Post, "/transaction/prepare")
    case BroadcastTx => Endpoint(Post, "/transaction/broadcast")
  }

  /** The server's routing table for these calls: the inverse of `RouteEndpoint`. */
  function RouteOf(e: Endpoint): Option<Route>
  {
    if e == Endpoint(Post, "/balance") then Some(Balance)
    else if e == Endpoint(Post, "/transaction/burn-usdc") then Some(BurnUsdcTx)
    else if e == Endpoint(Post, "/transaction/osmo-ibc-transfer") then Some(OsmoIbcTransferTx)
    else if e == Endpoint(Post, "/transaction/prepare") then Some(PrepareTx)
    else if e == Endpoint(Post, "/transaction/broadcast") then Some(BroadcastTx)
    else None
  }

  /** A fixed-path call: with the JSON accept header and the token, and routed back to the same call. */
  function Call(c: Client, route: Route): (r: Request)
    ensures r.accept == Json && r.authorization == c.bearerToken
    ensures EndpointOf(r, c.baseUrl).Some? && RouteOf(EndpointOf(r, c.baseUrl).value) == Some(route)
  {
    var e := RouteEndpoint(route);
    Send(c, e.verb, e.path, Json)
  }
}
