/**
 * `KilnCardanoClient`: the "/ada" client. Its stakes read takes its filters
 * as separate arguments, with optional paging that defaults to page 1 of
 * size 1; its network-stats read takes the same request as its reports.
 */
module Cardano {
  import opened Wrappers
  import opened Text
  import opened Query
  import opened Builder
  import opened Http
  import opened Types

  const Prefix: string := "/ada"

  /** `From<&Kiln>`. */
  function From(k: Kiln): (c: Client)
    ensures c.baseUrl == k.baseUrl + "/ada"
    ensures ApiTokenOf(c.bearerToken) == Some(k.apiToken)
  {
    Derive(k, Prefix)
  }

  /** `unwrap_or(1)` on an optional page number. */
  function PageOrFirst(p: Option<U64>): (n: U64)
    ensures n == (if p.Some? then p.value else 1)
  {
    match p
    case Some(n) => n
    case None => 1
  }

  /** The parameters of `get_stakes`, in template order: page size before current page. */
  function StakesQuery(wallets: seq<string>, vaults: seq<string>, poolIds: seq<string>, accounts: seq<Uuid>,
                       currentPage: Option<U64>, pageSize: Option<U64>): (ps: seq<Param>)
    ensures |ps| == 6
    ensures ps[0] == Param("wallets", Csv(wallets)) && ps[1] == Param("vaults", Csv(vaults))
    ensures ps[2] == Param("pool_ids", Csv(poolIds)) && ps[3] == Param("accounts", Csv(accounts))
    ensures ps[4] == Param("page_size", NatToString(if pageSize.Some? then pageSize.value else 1))
    ensures ps[5] == Param("current_page", NatToString(if currentPage.Some? then currentPage.value else 1))
  {
    [Param("wallets", Csv(wallets)), Param("vaults", Csv(vaults)), Param("pool_ids", Csv(poolIds)), Param("accounts", Csv(accounts)),
     Param("page_size", NatToString(PageOrFirst(pageSize))), Param("current_page", NatToString(PageOrFirst(currentPage)))]
  }

  /** `get_stakes`. */
  function Stakes(c: Client, wallets: seq<string>, vaults: seq<string>, poolIds: seq<string>, accounts: seq<Uuid>,
                  currentPage: Option<U64>, pageSize: Option<U64>): (r: Request)
    ensures r.accept == Json && r.authorization == c.bearerToken
    ensures Queries(r, c, "/stakes", StakesQuery(wallets, vaults, poolIds, accounts, currentPage, pageSize))
  {
    Fetch(c, "/stakes", StakesQuery(wallets, vaults, poolIds, accounts, currentPage, pageSize), Json)
  }

  /**
   * A server reads the paging back from a stakes request whose list items
   * are plain: the numbers given, and 1 for each one left out.
   */
  lemma StakesPagingReadsBack(c: Client, wallets: seq<string>, vaults: seq<string>, poolIds: seq<string>, accounts: seq<Uuid>,
                              currentPage: Option<U64>, pageSize: Option<U64>)
    requires '?' !in c.baseUrl && '#' !in c.baseUrl
    requires forall k :: 0 <= k < |wallets| ==> Plain(wallets[k])
    requires forall k :: 0 <= k < |vaults| ==> Plain(vaults[k])
    requires forall k :: 0 <= k < |poolIds| ==> Plain(poolIds[k])
    ensures |Params(Stakes(c, wallets, vaults, poolIds, accounts, currentPage, pageSize).url)| == 6
    ensures ParseNat(Params(Stakes(c, wallets, vaults, poolIds, accounts, currentPage, pageSize).url)[4].value)
         == Some(if pageSize.Some? then pageSize.value else 1)
    ensures ParseNat(Params(Stakes(c, wallets, vaults, poolIds, accounts, currentPage, pageSize).url)[5].value)
         == Some(if currentPage.Some? then currentPage.value else 1)
  {
    var ps := StakesQuery(wallets, vaults, poolIds, accounts, currentPage, pageSize);
    StakesQueryIsClean(wallets, vaults, poolIds, accounts, currentPage, pageSize);
    assert '?' !in c.baseUrl + "/stakes" && '#' !in c.baseUrl + "/stakes";
    assert Params(Stakes(c, wallets, vaults, poolIds, accounts, currentPage, pageSize).url) == ps;
    ParseNatToString(PageOrFirst(pageSize));
    ParseNatToString(PageOrFirst(currentPage));
  }

  /**
   * An empty filter list is still sent, as the bare "key=", and absent paging
   * as page 1 of size 1: the query text is these six pieces joined by '&'.
   */
  lemma EmptyFiltersAreSent()
    ensures Encode(StakesQuery(["w1", "w2"], [], ["p1"], [], None, None))
         == Join(["wallets=w1,w2", "vaults=", "pool_ids=p1", "accounts=", "page_size=1", "current_page=1"], '&')
  {
    EmptyFiltersQuery();
    EmptyFiltersPairs();
  }

  lemma EmptyFiltersQuery()
    ensures StakesQuery(["w1", "w2"], [], ["p1"], [], None, None)
         == [Param("wallets", "w1,w2"), Param("vaults", ""), Param("pool_ids", "p1"), Param("accounts", ""),
             Param("page_size", "1"), Param("current_page", "1")]
  {
    assert Csv(["w1", "w2"]) == "w1,w2" by { JoinCons("w1", ["w2"], ','); }
    assert NatToString(1) == "1" by { assert DigitChar(1) == '1'; }
  }

  lemma EmptyFiltersPairs()
    ensures Pairs([Param("wallets", "w1,w2"), Param("vaults", ""), Param("pool_ids", "p1"), Param("accounts", ""),
                   Param("page_size", "1"), Param("current_page", "1")])
         == ["wallets=w1,w2", "vaults=", "pool_ids=p1", "accounts=", "page_size=1", "current_page=1"]
  {
    var r := Pairs([Param("wallets", "w1,w2"), Param("vaults", ""), Param("pool_ids", "p1"), Param("accounts", ""),
                    Param("page_size", "1"), Param("current_page", "1")]);
    assert r[0] == "wallets=w1,w2";
    assert r[1] == "vaults=";
    assert r[2] == "pool_ids=p1";
    assert r[3] == "accounts=";
    assert r[4] == "page_size=1";
    assert r[5] == "current_page=1";
  }

  lemma StakesQueryIsClean(wallets: seq<string>, vaults: seq<string>, poolIds: seq<string>, accounts: seq<Uuid>,
                           currentPage: Option<U64>, pageSize: Option<U64>)
    requires forall k :: 0 <= k < |wallets| ==> Plain(wallets[k])
    requires forall k :: 0 <= k < |vaults| ==> Plain(vaults[k])
    requires forall k :: 0 <= k < |poolIds| ==> Plain(poolIds[k])
    ensures Clean(StakesQuery(wallets, vaults, poolIds, accounts, currentPage, pageSize))
  {
    StakesKeysAreClean();
    CsvPlain(wallets);
    CsvPlain(vaults);
    CsvPlain(poolIds);
    UuidsArePlain(accounts);
    NatIsPlain(PageOrFirst(pageSize));
    NatIsPlain(PageOrFirst(currentPage));
  }

  lemma StakesKeysAreClean()
    ensures Plain("wallets") && '=' !in "wallets" && Plain("vaults") && '=' !in "vaults"
    ensures Plain("pool_ids") && '=' !in "pool_ids" && Plain("accounts") && '=' !in "accounts"
    ensures Plain("page_size") && '=' !in "page_size" && Plain("current_page") && '=' !in "current_page"
  {
  }

  /** `CardanoReportsRequest`: here the accounts are plain strings. */
  datatype ReportsRequest = ReportsRequest(stakeAddresses: seq<string>, wallets: seq<string>, accounts: seq<string>, format: ResponseFormat)

  function ReportsQuery(q: ReportsRequest): (ps: seq<Param>)
    ensures |ps| == 4 && ps[3] == Param("format", FormatText(q.format))
    ensures ps[0] == Param("stake_addresses", Csv(q.stakeAddresses)) && ps[1] == Param("wallets", Csv(q.wallets))
    ensures ps[2] == Param("accounts", Csv(q.accounts))
  {
    [Param("stake_addresses", Csv(q.stakeAddresses)), Param("wallets", Csv(q.wallets)), Param("accounts", Csv(q.accounts)),
     Param("format", FormatText(q.format))]
  }

  /** `get_network_stats`: filtered by the same request as the reports. */
  function NetworkStats(c: Client, q: ReportsRequest): (r: Request)
    ensures r.accept == Json && r.authorization == c.bearerToken
    ensures Queries(r, c, "/network-stats", ReportsQuery(q))
  {
    Fetch(c, "/network-stats", ReportsQuery(q), Json)
  }

  /** `get_reports`: a binary download. */
  function Reports(c: Client, q: ReportsRequest): (r: Request)
    ensures r.accept == OctetStream && r.authorization == c.bearerToken
    ensures Queries(r, c, "/reports", ReportsQuery(q))
  {
    Fetch(c, "/reports", ReportsQuery(q), OctetStream)
  }

  /** `StakeOperationsRequest`. */
  datatype OperationsRequest = OperationsRequest(
    stakeAddresses: seq<string>, wallets: seq<string>, poolIds: seq<string>, accounts: seq<Uuid>,
    startDate: DateTime, endDate: DateTime)

  /** `get_operations`. */
  function Operations(c: Client, q: OperationsRequest): (r: Request)
    ensures r.accept == Json && r.authorization == c.bearerToken
    ensures Queries(r, c, "/operations",
      [Param("stake_addresses", Csv(q.stakeAddresses)), Param("wallets", Csv(q.wallets)), Param("pool_ids", Csv(q.poolIds)),
       Param("accounts", Csv(q.accounts)), Param("start_date", q.startDate), Param("end_date", q.endDate)])
  {
    Fetch(c, "/operations",
      [Param("stake_addresses", Csv(q.stakeAddresses)), Param("wallets", Csv(q.wallets)), Param("pool_ids", Csv(q.poolIds)),
       Param("accounts", Csv(q.accounts)), Param("start_date", q.startDate), Param("end_date", q.endDate)], Json)
  }

  /** The client's calls whose URL is a fixed path. */
  datatype Route =
    | PostStakes | StakeTx | WithdrawRewardsTx | UnstakeTx | PrepareTx | BroadcastTx

  function RouteEndpoint(route: Route): (e: Endpoint)
    ensures RouteOf(e) == Some(route)
  {
    match route
    case PostStakes => Endpoint(Post, "/stakes")
    case StakeTx => Endpoint(Post, "/transaction/stake")
    case WithdrawRewardsTx => Endpoint(Post, "/transaction/withdraw-rewards")
    case UnstakeTx => Endpoint(Post, "/transaction/unstake")
    case PrepareTx => Endpoint(Post, "/transaction/prepare")
    case BroadcastTx => Endpoint(Post, "/transaction/broadcast")
  }

  /** The server's routing table for these calls: the inverse of `RouteEndpoint`. */
  function RouteOf(e: Endpoint): Option<Route>
  {
    if e == Endpoint(Post, "/stakes") then Some(PostStakes)
    else if e == Endpoint(Post, "/transaction/stake") then Some(StakeTx)
    else if e == Endpoint(Post, "/transaction/withdraw-rewards") then Some(WithdrawRewardsTx)
    else if e == Endpoint(Post, "/transaction/unstake") then Some(UnstakeTx)
    else if e == Endpoint(Post, "/transaction/prepare") then Some(PrepareTx)
    else if e == Endpoint(Post, "/transaction/broadcast") then Some(BroadcastTx)
    else None
  }

  /** A fixed-path call: with the JSON accept header and the token, and routed back to the same call. */
  function Call(c: Client, route: Route): (r: Request)
    ensures r.accept == Json && r.authorization == c.bearerToken
    ensures EndpointOf(r, c.baseUrl).Some? && RouteOf(EndpointOf(r, c.baseUrl).value) == Some(route)
  {
    var e := RouteEndpoint(route);
    Send(c, e.verb, e.path, Json)
  }
}
