/**
 * `KilnPolkadotClient`: the "/dot" client, with its own rewards format
 * (Daily or Era) and fourteen staking transactions under "/transaction/".
 * The Kusama client runs the same code from another prefix, so these
 * functions serve both (see the `Kusama` module).
 */
module Polkadot {
  import opened Wrappers
  import opened Text
  import opened Query
  import opened Builder
  import opened Http

  const Prefix: string := "/dot"

  /** `From<&Kiln>`. */
  function From(k: Kiln): (c: Client)
    ensures c.baseUrl == k.baseUrl + "/dot"
    ensures ApiTokenOf(c.bearerToken) == Some(k.apiToken)
  {
    Derive(k, Prefix)
  }

  /** `PolkadotResponseFormat`: `AsRefStr` prints the variant names. */
  datatype ResponseFormat = Daily | Era

  /** `#[default]`. */
  const DefaultResponseFormat: ResponseFormat := Daily

  function FormatText(f: ResponseFormat): (s: string)
    ensures FormatOfText(s) == Some(f)
  {
    match f
    case Daily => "Daily"
    case Era => "Era"
  }

  function FormatOfText(s: string): Option<ResponseFormat>
  {
    if s == "Daily" then Some(Daily) else if s == "Era" then Some(Era) else None
  }

  /** `PolkadotGetStakesRequest`. */
  datatype StakesRequest = StakesRequest(addresses: seq<string>, accounts: seq<Uuid>)

  /** `get_stakes`. */
  function Stakes(c: Client, q: StakesRequest): (r: Request)
    ensures r.accept == Json && r.authorization == c.bearerToken
    ensures Queries(r, c, "/stakes", [Param("addresses", Csv(q.addresses)), Param("accounts", Csv(q.accounts))])
  {
    Fetch(c, "/stakes", [Param("addresses", Csv(q.addresses)), Param("accounts", Csv(q.accounts))], Json)
  }

  /** `PolkadotRewardRequest`: pool_ids comes before accounts here, after them in the query. */
  datatype RewardRequest = RewardRequest(
    addresses: seq<string>, poolIds: seq<string>, accounts: seq<Uuid>, startDate: DateTime, endDate: DateTime, format: ResponseFormat)

  /** `get_rewards`. */
  function Rewards(c: Client, q: RewardRequest): (r: Request)
    ensures r.accept == Json && r.authorization == c.bearerToken
    ensures Queries(r, c, "/rewards",
      [Param("addresses", Csv(q.addresses)), Param("accounts", Csv(q.accounts)), Param("pool_ids", Csv(q.poolIds)),
       Param("format", FormatText(q.format)), Param("start_date", q.startDate), Param("end_date", q.endDate)])
  {
    Fetch(c, "/rewards",
      [Param("addresses", Csv(q.addresses)), Param("accounts", Csv(q.accounts)), Param("pool_ids", Csv(q.poolIds)),
       Param("format", FormatText(q.format)), Param("start_date", q.startDate), Param("end_date", q.endDate)], Json)
  }

  /** `PolkadotOperationsRequest`. */
  datatype OperationsRequest = OperationsRequest(addresses: seq<string>, accounts: seq<Uuid>, startDate: DateTime, endDate: DateTime)

  /** `get_operations`. */
  function Operations(c: Client, q: OperationsRequest): (r: Request)
    ensures r.accept == Json && r.authorization == c.bearerToken
    ensures Queries(r, c, "/operations",
      [Param("addresses", Csv(q.addresses)), Param("accounts", Csv(q.accounts)),
       Param("start_date", q.startDate), Param("end_date", q.endDate)])
  {
    Fetch(c, "/operations",
      [Param("addresses", Csv(q.addresses)), Param("accounts", Csv(q.accounts)),
       Param("start_date", q.startDate), Param("end_date", q.endDate)], Json)
  }

  /** `PolkadotReportsRequest`. */
  datatype ReportsRequest = ReportsRequest(addresses: seq<string>, accounts: seq<Uuid>)

  /** `get_reports`: a binary download. */
  function Reports(c: Client, q: ReportsRequest): (r: Request)
    ensures r.accept == OctetStream && r.authorization == c.bearerToken
    ensures Queries(r, c, "/reports", [Param("addresses", Csv(q.addresses)), Param("accounts", Csv(q.accounts))])
  {
    Fetch(c, "/reports", [Param("addresses", Csv(q.addresses)), Param("accounts", Csv(q.accounts))], OctetStream)
  }

  /** The staking transactions, one per `post_*_tx` method. */
  datatype StakingTx =
    | Bond | BondExtra | Rebond | Unbond | Nominate | WithdrawUnbonded | Chill | SetPayee
    | JoinPool | BondExtraPool | BondRewardsToPool | ClaimPayoutFromPool | UnbondFromPool | WithdrawUnbondedFromPool

  /** The slug each transaction is posted under. */
  function Slug(t: StakingTx): (s: string)
    ensures TxOfSlug(s) == Some(t)
  {
    match t
    case Bond => "bond"
    case BondExtra => "bond-extra"
    case Rebond => "rebond"
    case Unbond => "unbond"
    case Nominate => "nominate"
    case WithdrawUnbonded => "withdraw-unbonded"
    case Chill => "chill"
    case SetPayee => "set-payee"
    case JoinPool => "join-pool"
    case BondExtraPool => "bond-extra-pool"
    case BondRewardsToPool => "bond-rewards-pool"
    case ClaimPayoutFromPool => "claim-payout-pool"
    case UnbondFromPool => "unbond-pool"
    case WithdrawUnbondedFromPool => "withdraw-unbonded-pool"
  }

  /** The inverse of `Slug`: it exists because the fourteen slugs are pairwise distinct. */
  function TxOfSlug(s: string): Option<StakingTx>
  {
    if s == "bond" then Some(Bond)
    else if s == "bond-extra" then Some(BondExtra)
    else if s == "rebond" then Some(Rebond)
    else if s == "unbond" then Some(Unbond)
    else if s == "nominate" then Some(Nominate)
    else if s == "withdraw-unbonded" then Some(WithdrawUnbonded)
    else if s == "chill" then Some(Chill)
    else if s == "set-payee" then Some(SetPayee)
    else if s == "join-pool" then Some(JoinPool)
    else if s == "bond-extra-pool" then Some(BondExtraPool)
    else if s == "bond-rewards-pool" then Some(BondRewardsToPool)
    else if s == "claim-payout-pool" then Some(ClaimPayoutFromPool)
    else if s == "unbond-pool" then Some(UnbondFromPool)
    else if s == "withdraw-unbonded-pool" then Some(WithdrawUnbondedFromPool)
    else None
  }
  /** Exactly the fourteen slugs are read back, each as its own transaction. */
  lemma TxOfSlugExactly(s: string, t: StakingTx)
    ensures TxOfSlug(s) == Some(t) <==> s == Slug(t)
  {
    if TxOfSlug(s) == Some(t) {
      match t
      case Bond => assert s == "bond";
      case BondExtra => assert s == "bond-extra";
      case Rebond => assert s == "rebond";
      case Unbond => assert s == "unbond";
      case Nominate => assert s == "nominate";
      case WithdrawUnbonded => assert s == "withdraw-unbonded";
      case Chill => assert s == "chill";
      case SetPayee => assert s == "set-payee";
      case JoinPool => assert s == "join-pool";
      case BondExtraPool => assert s == "bond-extra-pool";
      case BondRewardsToPool => assert s == "bond-rewards-pool";
      case ClaimPayoutFromPool => assert s == "claim-payout-pool";
      case UnbondFromPool => assert s == "unbond-pool";
      case WithdrawUnbondedFromPool => assert s == "withdraw-unbonded-pool";
    }
  }


  const TransactionPath: string := "/transaction/"

  /** A staking transaction: a POST of base + "/transaction/" + its slug, and the slug after that prefix names the transaction back. */
  function Transaction(c: Client, t: StakingTx): (r: Request)
    ensures r.verb == Post && r.accept == Json && r.authorization == c.bearerToken
    ensures EndpointOf(r, c.baseUrl + TransactionPath).Some?
    ensures TxOfSlug(EndpointOf(r, c.baseUrl + TransactionPath).value.path) == Some(t)
  {
    SendUnder(c, Post, TransactionPath, Slug(t), Json);
    Send(c, Post, TransactionPath + Slug(t), Json)
  }

  /** The other fixed-path calls. */
  datatype Route = NetworkStats | PrepareTx | BroadcastTx

  function RouteEndpoint(route: Route): (e: Endpoint)
    ensures RouteOf(e) == Some(route)
  {
    match route
    case NetworkStats => Endpoint(Get, "/network-stats")
    case PrepareTx => Endpoint(Post, "/transaction/prepare")
    case BroadcastTx => Endpoint(Post, "/transaction/broadcast")
  }

  function RouteOf(e: Endpoint): Option<Route>
  {
    if e == Endpoint(Get, "/network-stats") then Some(NetworkStats)
    else if e == Endpoint(Post, "/transaction/prepare") then Some(PrepareTx)
    else if e == Endpoint(Post, "/transaction/broadcast") then Some(BroadcastTx)
    else None
  }

  /** A fixed-path call: with the JSON accept header and the token, and routed back to the same call. */
  function Call(c: Client, route: Route): (r: Request)
    ensures r.accept == Json && r.authorization == c.bearerToken
    ensures EndpointOf(r, c.baseUrl).Some? && RouteOf(EndpointOf(r, c.baseUrl).value) == Some(route)
  {
    var e := RouteEndpoint(route);
    Send(c, e.verb, e.path, Json)
  }
}
