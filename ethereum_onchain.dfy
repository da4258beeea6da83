/**
 * `KilnEthereumOnchainClient`: the "/eth/onchain" client. Its reads open
 * their query with "?&"; the empty piece before the first parameter carries
 * no pair, so a server reads the same parameters as from "?".
 */
module EthereumOnchain {
  import opened Wrappers
  import opened Text
  import opened Query
  import opened Builder
  import opened Http

  const Prefix: string := "/eth/onchain"

  /** `From<&Kiln>`. */
  function From(k: Kiln): (c: Client)
    ensures c.baseUrl == k.baseUrl + "/eth/onchain"
    ensures ApiTokenOf(c.bearerToken) == Some(k.apiToken)
  {
    Derive(k, Prefix)
  }

  /** `get_onchain_v2_stakes`. */
  function V2Stakes(c: Client, wallets: seq<string>): (r: Request)
    ensures r.accept == Json && r.authorization == c.bearerToken
    ensures QueriesAfterAmpersand(r, c, "/v2/stakes", [Param("wallets", Csv(wallets))])
  {
    FetchAfterAmpersand(c, "/v2/stakes", [Param("wallets", Csv(wallets))], Json)
  }

  /** `OnchainV2OperationsRequest`. */
  datatype OperationsRequest = OperationsRequest(wallets: seq<string>, ids: seq<string>, startDate: DateTime, endDate: DateTime)

  /** `get_onchain_v2_operations`. */
  function V2Operations(c: Client, q: OperationsRequest): (r: Request)
    ensures r.accept == Json && r.authorization == c.bearerToken
    ensures QueriesAfterAmpersand(r, c, "/v2/operations",
      [Param("wallets", Csv(q.wallets)), Param("ids", Csv(q.ids)), Param("start_date", q.startDate), Param("end_date", q.endDate)])
  {
    FetchAfterAmpersand(c, "/v2/operations",
      [Param("wallets", Csv(q.wallets)), Param("ids", Csv(q.ids)), Param("start_date", q.startDate), Param("end_date", q.endDate)], Json)
  }

  /** `OnchainV2RewardsRequest`. */
  datatype RewardsRequest = RewardsRequest(
    wallets: seq<string>, startDate: DateTime, endDate: DateTime, includeUsd: bool, integration: string)

  /** `get_onchain_v2_rewards`: include_usd ahead of integration, in the order the request type declares them. */
  function V2Rewards(c: Client, q: RewardsRequest): (r: Request)
    ensures r.accept == Json && r.authorization == c.bearerToken
    ensures QueriesAfterAmpersand(r, c, "/v2/rewards",
      [Param("wallets", Csv(q.wallets)), Param("start_date", q.startDate), Param("end_date", q.endDate),
       Param("include_usd", BoolToString(q.includeUsd)), Param("integration", q.integration)])
  {
    FetchAfterAmpersand(c, "/v2/rewards",
      [Param("wallets", Csv(q.wallets)), Param("start_date", q.startDate), Param("end_date", q.endDate),
       Param("include_usd", BoolToString(q.includeUsd)), Param("integration", q.integration)], Json)
  }

  /** `get_onchain_v2_network_stats`: the integration contract is the one parameter. */
  function V2NetworkStats(c: Client, integration: string): (r: Request)
    ensures r.accept == Json && r.authorization == c.bearerToken
    ensures QueriesAfterAmpersand(r, c, "/v2/network-stats", [Param("integration", integration)])
  {
    FetchAfterAmpersand(c, "/v2/network-stats", [Param("integration", integration)], Json)
  }

  /** `get_onchain_v2_exit_tickets`. */
  function V2ExitTickets(c: Client, wallets: seq<string>): (r: Request)
    ensures r.accept == Json && r.authorization == c.bearerToken
    ensures QueriesAfterAmpersand(r, c, "/v2/exit-tickets", [Param("wallets", Csv(wallets))])
  {
    FetchAfterAmpersand(c, "/v2/exit-tickets", [Param("wallets", Csv(wallets))], Json)
  }

  /** The "?&" URL is not the "?" URL, yet a server reads the same path and parameters from both. */
  lemma LeadingAmpersandIsHarmless(c: Client, wallets: seq<string>)
    requires '?' !in c.baseUrl && '#' !in c.baseUrl
    requires forall k :: 0 <= k < |wallets| ==> Plain(wallets[k])
    ensures V2Stakes(c, wallets).url != Fetch(c, "/v2/stakes", [Param("wallets", Csv(wallets))], Json).url
    ensures PathOf(V2Stakes(c, wallets).url) == PathOf(Fetch(c, "/v2/stakes", [Param("wallets", Csv(wallets))], Json).url)
    ensures Params(V2Stakes(c, wallets).url) == Params(Fetch(c, "/v2/stakes", [Param("wallets", Csv(wallets))], Json).url)
  {
    var ps := [Param("wallets", Csv(wallets))];
    WalletsAreClean(wallets);
    assert '?' !in c.baseUrl + "/v2/stakes" && '#' !in c.baseUrl + "/v2/stakes";
    var e1 := EndpointOf(V2Stakes(c, wallets), c.baseUrl).value.path;
    var e2 := EndpointOf(Fetch(c, "/v2/stakes", ps, Json), c.baseUrl).value.path;
    assert |e1| == |e2| + 1;
  }

  lemma WalletsAreClean(wallets: seq<string>)
    requires forall k :: 0 <= k < |wallets| ==> Plain(wallets[k])
    ensures Clean([Param("wallets", Csv(wallets))])
  {
    CsvPlain(wallets);
    assert Plain("wallets") && '=' !in "wallets";
  }

  /** The client's calls whose URL is a fixed path. */
  datatype Route =
    | V1Keys | V2Keys

  function RouteEndpoint(route: Route): (e: Endpoint)
    ensures RouteOf(e) == Some(route)
  {
    match route
    case V1Keys => Endpoint(Post, "/v1/keys")
    case V2Keys => Endpoint(Post, "/v2/keys")
  }

  /** The server's routing table for these calls: the inverse of `RouteEndpoint`. */
  function RouteOf(e: Endpoint): Option<Route>
  {
    if e == Endpoint(Post, "/v1/keys") then Some(V1Keys)
    else if e == Endpoint(Post, "/v2/keys") then Some(V2Keys)
    else None
  }

  /** A fixed-path call: with the JSON accept header and the token, and routed back to the same call. */
  function Call(c: Client, route: Route): (r: Request)
    ensures r.accept == Json && r.authorization == c.bearerToken
    ensures EndpointOf(r, c.baseUrl).Some? && RouteOf(EndpointOf(r, c.baseUrl).value) == Some(route)
  {
    var e := RouteEndpoint(route);
    Send(c, e.verb, e.path, Json)
  }
}
