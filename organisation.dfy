/**
 * `KilnOrganisationClient`: the "/organisations" client. It is built by `new`
 * rather than `From`, and reads one organisation's portfolio or reports by id.
 */
module Organisation {
  import opened Wrappers
  import opened Builder
  import opened Http

  const Prefix: string := "/organisations"

  /** `KilnOrganisationClient::new`. */
  function New(k: Kiln): (c: Client)
    ensures c.baseUrl == k.baseUrl + "/organisations"
    ensures ApiTokenOf(c.bearerToken) == Some(k.apiToken)
  {
    Derive(k, Prefix)
  }

  /** `get_by_uuid` and `reports`. */
  datatype Route = Read(id: Uuid) | Reports(id: Uuid)

  function RouteEndpoint(route: Route): (e: Endpoint)
    ensures RouteOf(e) == Some(route)
  {
    match route
    case Read(id) => SplitUnderId(id, ""); Endpoint(Get, UnderId(id, ""))
    case Reports(id) => SplitUnderId(id, "/reports"); Endpoint(Get, UnderId(id, "/reports"))
  }

  /** The server's routing of these GETs: the inverse of `RouteEndpoint`. */
  function RouteOf(e: Endpoint): Option<Route>
  {
    if e.verb != Get then None
    else
      match SplitId(e.path)
      case None => None
      case Some((id, rest)) =>
        if rest == "" then Some(Read(id)) else if rest == "/reports" then Some(Reports(id)) else None
  }

  /** A call: the reports come back as bytes, the portfolio as JSON; routed back to the same call. */
  function Call(c: Client, route: Route): (r: Request)
    ensures r.accept == (if route.Reports? then OctetStream else Json) && r.authorization == c.bearerToken
    ensures EndpointOf(r, c.baseUrl).Some? && RouteOf(EndpointOf(r, c.baseUrl).value) == Some(route)
  {
    var e := RouteEndpoint(route);
    Send(c, e.verb, e.path, if route.Reports? then OctetStream else Json)
  }
}
