/**
 * `KilnAccountClient`: the "/accounts" client, a REST resource. The list and
 * create calls go to the base URL itself; the others put the account id as
 * one more path segment.
 */
module Account {
  import opened Wrappers
  import opened Text
  import opened Query
  import opened Builder
  import opened Http

  const Prefix: string := "/accounts"

  /** `From<&Kiln>`. */
  function From(k: Kiln): (c: Client)
    ensures c.baseUrl == k.baseUrl + "/accounts"
    ensures ApiTokenOf(c.bearerToken) == Some(k.apiToken)
  {
    Derive(k, Prefix)
  }

  /** The calls without a query: `get_all`, `post`, `get_by_uuid`, `put`, `delete` and `get_reports`. */
  datatype Route = List | Create | Read(id: Uuid) | Update(id: Uuid) | Remove(id: Uuid) | Reports(id: Uuid)

  function RouteEndpoint(route: Route): (e: Endpoint)
    ensures RouteOf(e) == Some(route)
  {
    match route
    case List => Endpoint(Get, "")
    case Create => Endpoint(Post, "")
    case Read(id) => SplitUnderId(id, ""); Endpoint(Get, UnderId(id, ""))
    case Update(id) => SplitUnderId(id, ""); Endpoint(Put, UnderId(id, ""))
    case Remove(id) => SplitUnderId(id, ""); Endpoint(Delete, UnderId(id, ""))
    case Reports(id) => SplitUnderId(id, "/reports"); Endpoint(Get, UnderId(id, "/reports"))
  }

  /**
   * The server's routing of this resource: the verb decides among the calls
   * on the collection and among those on one account; the inverse of
   * `RouteEndpoint`.
   */
  function RouteOf(e: Endpoint): Option<Route>
  {
    if e.path == "" then
      if e.verb == Get then Some(List) else if e.verb == Post then Some(Create) else None
    else
      match SplitId(e.path)
      case None => None
      case Some((id, rest)) =>
        if rest == "" then
          match e.verb
          case Get => Some(Read(id))
          case Put => Some(Update(id))
          case Delete => Some(Remove(id))
          case Post => None
        else if rest == "/reports" && e.verb == Get then Some(Reports(id))
        else None
  }

  /** A call: the reports come back as bytes, everything else as JSON; routed back to the same call. */
  function Call(c: Client, route: Route): (r: Request)
    ensures r.accept == (if route.Reports? then OctetStream else Json) && r.authorization == c.bearerToken
    ensures EndpointOf(r, c.baseUrl).Some? && RouteOf(EndpointOf(r, c.baseUrl).value) == Some(route)
  {
    var e := RouteEndpoint(route);
    Send(c, e.verb, e.path, if route.Reports? then OctetStream else Json)
  }

  /** `portofolio`: the path segment is spelled as in the source, and the flag is the one parameter. */
  function Portofolio(c: Client, id: Uuid, refresh: bool): (r: Request)
    ensures r.accept == Json && r.authorization == c.bearerToken
    ensures Queries(r, c, UnderId(id, "/portofolio"), [Param("refresh", BoolToString(refresh))])
  {
    Fetch(c, UnderId(id, "/portofolio"), [Param("refresh", BoolToString(refresh))], Json)
  }

  /** Exactly the collection calls reach the base URL itself. */
  lemma CollectionCallsTargetBase(c: Client, route: Route)
    ensures Call(c, route).url == c.baseUrl <==> route == List || route == Create
  {
  }
}
