/**
 * `KilnEthereumClient`: the "/eth" client. Its stakes read comes in two
 * shapes (network-wide with state filters, or scoped), the rewards and
 * operations reads send the indexes under "validators_indexes", and the
 * create-stakes call posts to the client's base URL itself.
 */
module Ethereum {
  import opened Wrappers
  import opened Text
  import opened Query
  import Builder
  import opened Http

  const Prefix: string := "/eth"

  /** `From<&Kiln>`. */
  function From(k: Builder.Kiln): (c: Client)
    ensures c.baseUrl == k.baseUrl + "/eth"
    ensures ApiTokenOf(c.bearerToken) == Some(k.apiToken)
  {
    Derive(k, Prefix)
  }

  /** `Scope`: `AsRefStr` prints the variant names, serde's snake_case notwithstanding. */
  datatype Scope = Kiln | Network

  function ScopeText(s: Scope): (t: string)
    ensures ScopeOfText(t) == Some(s)
  {
    match s
    case Kiln => "Kiln"
    case Network => "Network"
  }

  function ScopeOfText(t: string): Option<Scope>
  {
    if t == "Kiln" then Some(Kiln) else if t == "Network" then Some(Network) else None
  }

  /** `EthereumFilterState`: one strum spelling per variant. */
  datatype FilterState =
    | Unknown | Unstaked | DepositInProgress | PendingInitialized | PendingQueued
    | ActiveOngoing | ActiveExiting | ActiveSlashed | ExitedUnslashed | ExitedSlashed
    | WithdrawalPossible | WithdrawalDone

  function FilterStateName(f: FilterState): string
  {
    match f
    case Unknown => "unknown"
    case Unstaked => "unstaked"
    case DepositInProgress => "deposit_in_progress"
    case PendingInitialized => "pending_initialized"
    case PendingQueued => "pending_queued"
    case ActiveOngoing => "active_ongoing"
    case ActiveExiting => "active_exiting"
    case ActiveSlashed => "active_slashed"
    case ExitedUnslashed => "exited_unslashed"
    case ExitedSlashed => "exited_slashed"
    case WithdrawalPossible => "withdrawal_possible"
    case WithdrawalDone => "withdrawal_done"
  }

  /** `EthereumFilterState::from_str`: exactly the twelve names, each to its own variant. */
  function ParseFilterState(s: string): (r: Option<FilterState>)
    ensures r.Some? ==> FilterStateName(r.value) == s
    ensures forall f :: FilterStateName(f) == s ==> r == Some(f)
  {
    if s == "unknown" then Some(Unknown)
    else if s == "unstaked" then Some(Unstaked)
    else if s == "deposit_in_progress" then Some(DepositInProgress)
    else if s == "pending_initialized" then Some(PendingInitialized)
    else if s == "pending_queued" then Some(PendingQueued)
    else if s == "active_ongoing" then Some(ActiveOngoing)
    else if s == "active_exiting" then Some(ActiveExiting)
    else if s == "active_slashed" then Some(ActiveSlashed)
    else if s == "exited_unslashed" then Some(ExitedUnslashed)
    else if s == "exited_slashed" then Some(ExitedSlashed)
    else if s == "withdrawal_possible" then Some(WithdrawalPossible)
    else if s == "withdrawal_done" then Some(WithdrawalDone)
    else None
  }
  /** `FilterStateName` gives distinct states distinct names. */
  lemma FilterStateNameInjective(a: FilterState, b: FilterState)
    ensures FilterStateName(a) == FilterStateName(b) <==> a == b
  {
    assert ParseFilterState(FilterStateName(a)) == Some(a) && ParseFilterState(FilterStateName(b)) == Some(b);
  }


  /** The `as_ref()` of each filter, in order. */
  function FilterStateNames(fs: seq<FilterState>): (r: seq<string>)
    ensures |r| == |fs| && forall k :: 0 <= k < |fs| ==> ParseFilterState(r[k]) == Some(fs[k])
  {
    seq(|fs|, k requires 0 <= k < |fs| => FilterStateName(fs[k]))
  }

  /** No filter name holds a ',', so a server splitting the rendered list gets every filter back. */
  lemma FilterStatesRoundTrip(fs: seq<FilterState>)
    requires |fs| >= 1
    ensures Split(Csv(FilterStateNames(fs)), ',') == FilterStateNames(fs)
  {
    var names := FilterStateNames(fs);
    forall k | 0 <= k < |names| ensures ',' !in names[k] {
      NameHasNoComma(fs[k]);
    }
    SplitJoin(names, ',');
  }

  lemma NameHasNoComma(f: FilterState)
    ensures ',' !in FilterStateName(f)
  {
    match f
    case Unknown =>
    case Unstaked =>
    case DepositInProgress =>
    case PendingInitialized =>
    case PendingQueued =>
    case ActiveOngoing =>
    case ActiveExiting =>
    case ActiveSlashed =>
    case ExitedUnslashed =>
    case ExitedSlashed =>
    case WithdrawalPossible =>
    case WithdrawalDone =>
  }

  datatype NetworkStakesRequest = NetworkStakesRequest(
    validators: seq<string>, wallets: seq<string>, proxies: seq<string>, withdrawalCredentials: seq<string>,
    validatorIndexes: seq<U64>, includeEigenlayer: bool, accounts: seq<Uuid>,
    currentPage: NonZeroU64, pageSize: U64, filteredStates: seq<FilterState>)

  datatype ScopedStakesRequest = ScopedStakesRequest(
    validators: seq<string>, scope: Scope, wallets: seq<string>, proxies: seq<string>, withdrawalCredentials: seq<string>,
    validatorIndexes: seq<U64>, includeEigenlayer: bool, accounts: seq<Uuid>,
    currentPage: NonZeroU64, pageSize: NonZeroU64)

  /** `EthereumStakesRequest`. */
  datatype StakesRequest = NetworkStakes(network: NetworkStakesRequest) | ScopedStakes(scoped: ScopedStakesRequest)

  /**
   * `get_stakes`: the network shape sends no scope and ends with the state
   * filters; the scoped shape sends the scope right after the validators and
   * has no filters.
   */
  function Stakes(c: Client, q: StakesRequest): (r: Request)
    ensures r.accept == Json && r.authorization == c.bearerToken
    ensures q.NetworkStakes? ==> Queries(r, c, "/stakes",
      [Param("validators", Csv(q.network.validators)), Param("wallets", Csv(q.network.wallets)),
       Param("proxies", Csv(q.network.proxies)), Param("withdrawal_credentials", Csv(q.network.withdrawalCredentials)),
       Param("validator_indexes", Csv(Numerals(q.network.validatorIndexes))),
       Param("include_eigenlayer", BoolToString(q.network.includeEigenlayer)),
       Param("accounts", Csv(q.network.accounts)),
       Param("current_page", NatToString(q.network.currentPage)), Param("page_size", NatToString(q.network.pageSize)),
       Param("filtered_states", Csv(FilterStateNames(q.network.filteredStates)))])
    ensures q.ScopedStakes? ==> Queries(r, c, "/stakes",
      [Param("validators", Csv(q.scoped.validators)), Param("scope", ScopeText(q.scoped.scope)),
       Param("wallets", Csv(q.scoped.wallets)),
       Param("proxies", Csv(q.scoped.proxies)), Param("withdrawal_credentials", Csv(q.scoped.withdrawalCredentials)),
       Param("validator_indexes", Csv(Numerals(q.scoped.validatorIndexes))),
       Param("include_eigenlayer", BoolToString(q.scoped.includeEigenlayer)),
       Param("accounts", Csv(q.scoped.accounts)),
       Param("current_page", NatToString(q.scoped.currentPage)), Param("page_size", NatToString(q.scoped.pageSize))])
  {
    match q
    case NetworkStakes(n) =>
      Fetch(c, "/stakes",
        [Param("validators", Csv(n.validators)), Param("wallets", Csv(n.wallets)),
         Param("proxies", Csv(n.proxies)), Param("withdrawal_credentials", Csv(n.withdrawalCredentials)),
         Param("validator_indexes", Csv(Numerals(n.validatorIndexes))),
         Param("include_eigenlayer", BoolToString(n.includeEigenlayer)),
         Param("accounts", Csv(n.accounts)),
         Param("current_page", NatToString(n.currentPage)), Param("page_size", NatToString(n.pageSize)),
         Param("filtered_states", Csv(FilterStateNames(n.filteredStates)))], Json)
    case ScopedStakes(s) =>
      Fetch(c, "/stakes",
        [Param("validators", Csv(s.validators)), Param("scope", ScopeText(s.scope)),
         Param("wallets", Csv(s.wallets)),
         Param("proxies", Csv(s.proxies)), Param("withdrawal_credentials", Csv(s.withdrawalCredentials)),
         Param("validator_indexes", Csv(Numerals(s.validatorIndexes))),
         Param("include_eigenlayer", BoolToString(s.includeEigenlayer)),
         Param("accounts", Csv(s.accounts)),
         Param("current_page", NatToString(s.currentPage)), Param("page_size", NatToString(s.pageSize))], Json)
  }

  /** `EthereumRewardsRequest`. */
  datatype RewardsRequest = RewardsRequest(
    validators: seq<string>, scope: Scope, wallets: seq<string>, proxies: seq<string>, validatorIndexes: seq<U64>,
    accounts: seq<Uuid>, startDate: DateTime, endDate: DateTime, includeUsd: bool)

  /** `rewards`: the indexes go out under "validators_indexes". */
  function Rewards(c: Client, q: RewardsRequest): (r: Request)
    ensures r.accept == Json && r.authorization == c.bearerToken
    ensures Queries(r, c, "/rewards",
      [Param("validators", Csv(q.validators)), Param("scope", ScopeText(q.scope)), Param("wallets", Csv(q.wallets)),
       Param("proxies", Csv(q.proxies)), Param("validators_indexes", Csv(Numerals(q.validatorIndexes))),
       Param("accounts", Csv(q.accounts)), Param("start_date", q.startDate), Param("end_date", q.endDate),
       Param("include_usd", BoolToString(q.includeUsd))])
  {
    Fetch(c, "/rewards",
      [Param("validators", Csv(q.validators)), Param("scope", ScopeText(q.scope)), Param("wallets", Csv(q.wallets)),
       Param("proxies", Csv(q.proxies)), Param("validators_indexes", Csv(Numerals(q.validatorIndexes))),
       Param("accounts", Csv(q.accounts)), Param("start_date", q.startDate), Param("end_date", q.endDate),
       Param("include_usd", BoolToString(q.includeUsd))], Json)
  }

  /** `EthereumOperationsRequest`: here the indexes are already strings. */
  datatype OperationsRequest = OperationsRequest(
    validators: seq<string>, wallets: seq<string>, proxies: seq<string>, validatorIndexes: seq<string>,
    accounts: seq<Uuid>, startDate: DateTime, endDate: DateTime)

  /** `get_operations`: the indexes go out under "validators_indexes". */
  function Operations(c: Client, q: OperationsRequest): (r: Request)
    ensures r.accept == Json && r.authorization == c.bearerToken
    ensures Queries(r, c, "/operations",
      [Param("validators", Csv(q.validators)), Param("wallets", Csv(q.wallets)), Param("proxies", Csv(q.proxies)),
       Param("validators_indexes", Csv(q.validatorIndexes)), Param("accounts", Csv(q.accounts)),
       Param("start_date", q.startDate), Param("end_date", q.endDate)])
  {
    Fetch(c, "/operations",
      [Param("validators", Csv(q.validators)), Param("wallets", Csv(q.wallets)), Param("proxies", Csv(q.proxies)),
       Param("validators_indexes", Csv(q.validatorIndexes)), Param("accounts", Csv(q.accounts)),
       Param("start_date", q.startDate), Param("end_date", q.endDate)], Json)
  }

  /** `EthereumReportsRequest`. */
  datatype ReportsRequest = ReportsRequest(validators: seq<string>, wallets: seq<string>, accounts: seq<Uuid>)

  /** `get_reports`: a binary download. */
  function Reports(c: Client, q: ReportsRequest): (r: Request)
    ensures r.accept == OctetStream && r.authorization == c.bearerToken
    ensures Queries(r, c, "/reports",
      [Param("validators", Csv(q.validators)), Param("wallets", Csv(q.wallets)), Param("accounts", Csv(q.accounts))])
  {
    Fetch(c, "/reports",
      [Param("validators", Csv(q.validators)), Param("wallets", Csv(q.wallets)), Param("accounts", Csv(q.accounts))], OctetStream)
  }

  /** `get_exit_message`. */
  function ExitMessages(c: Client, validators: seq<string>): (r: Request)
    ensures r.accept == Json && r.authorization == c.bearerToken
    ensures Queries(r, c, "/transaction/exit-messages", [Param("validators", Csv(validators))])
  {
    Fetch(c, "/transaction/exit-messages", [Param("validators", Csv(validators))], Json)
  }

  /** The client's calls whose URL is a fixed path (request bodies are not modelled). */
  datatype Route =
    | PostStakes | NetworkStats | KilnStats | PostKeys | PostStakeTx
    | PrepareTx | BroadcastTx | RequestExitTx

  function RouteEndpoint(route: Route): (e: Endpoint)
    ensures RouteOf(e) == Some(route)
  {
    match route
    case PostStakes => Endpoint(Post, "")
    case NetworkStats => Endpoint(Get, "/network-stats")
    case KilnStats => Endpoint(Get, "/kiln-stats")
    case PostKeys => Endpoint(Post, "/keys")
    case PostStakeTx => Endpoint(Post, "/stake")
    case PrepareTx => Endpoint(Post, "/transaction/prepare")
    case BroadcastTx => Endpoint(Post, "/transaction/broadcast")
    case RequestExitTx => Endpoint(Post, "/transaction/exit-request")
  }

  /** The server's routing table for these calls: the inverse of `RouteEndpoint`. */
  function RouteOf(e: Endpoint): Option<Route>
  {
    if e == Endpoint(Post, "") then Some(PostStakes)
    else if e == Endpoint(Get, "/network-stats") then Some(NetworkStats)
    else if e == Endpoint(Get, "/kiln-stats") then Some(KilnStats)
    else if e == Endpoint(Post, "/keys") then Some(PostKeys)
    else if e == Endpoint(Post, "/stake") then Some(PostStakeTx)
    else if e == Endpoint(Post, "/transaction/prepare") then Some(PrepareTx)
    else if e == Endpoint(Post, "/transaction/broadcast") then Some(BroadcastTx)
    else if e == Endpoint(Post, "/transaction/exit-request") then Some(RequestExitTx)
    else None
  }

  /** A fixed-path call: with the JSON accept header and the token, and routed back to the same call. */
  function Call(c: Client, route: Route): (r: Request)
    ensures r.accept == Json && r.authorization == c.bearerToken
    ensures EndpointOf(r, c.baseUrl).Some? && RouteOf(EndpointOf(r, c.baseUrl).value) == Some(route)
  {
    var e := RouteEndpoint(route);
    Send(c, e.verb, e.path, Json)
  }

  /** `post_stakes` posts to the client's base URL with nothing appended, and it is the only call that does. */
  lemma PostStakesTargetsBase(c: Client, route: Route)
    ensures Call(c, route).url == c.baseUrl <==> route == PostStakes
    ensures Call(c, PostStakes).verb == Post
  {
  }
}
