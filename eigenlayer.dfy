/**
 * `KilnEigenlayerClient`: the "/eth/eigenlayer" client, a sub-tree of the
 * Ethereum client's URLs. Eight of its reads take one wallet address and
 * differ only in their path; one takes an operator address.
 */
module Eigenlayer {
  import opened Wrappers
  import opened Text
  import opened Query
  import opened Builder
  import opened Http

  const Prefix: string := "/eth/eigenlayer"

  /** `From<&Kiln>`. */
  function From(k: Kiln): (c: Client)
    ensures c.baseUrl == k.baseUrl + "/eth/eigenlayer"
    ensures ApiTokenOf(c.bearerToken) == Some(k.apiToken)
  {
    Derive(k, Prefix)
  }

  /** The reads keyed by one `wallet` parameter (`avs_rewards` is another name for `AvsRewards`). */
  datatype WalletRead =
    | Eigenpod | Summary | AvsRewards | NativePoints | NativeUndelegations | LiquidPoints | LiquidDeposits
    | LiquidWithdrawals

  function ReadPath(w: WalletRead): (p: string)
    ensures ReadOfPath(p) == Some(w)
  {
    match w
    case Eigenpod => "/eigenpod"
    case Summary => "/summary"
    case AvsRewards => "/avs-rewards"
    case NativePoints => "/native/points"
    case NativeUndelegations => "/native/undelegations"
    case LiquidPoints => "/liquid/points"
    case LiquidDeposits => "/liquid/deposits"
    case LiquidWithdrawals => "/liquid/withdrawals"
  }

  /** The inverse of `ReadPath`. */
  function ReadOfPath(p: string): Option<WalletRead>
  {
    if p == "/eigenpod" then Some(Eigenpod)
    else if p == "/summary" then Some(Summary)
    else if p == "/avs-rewards" then Some(AvsRewards)
    else if p == "/native/points" then Some(NativePoints)
    else if p == "/native/undelegations" then Some(NativeUndelegations)
    else if p == "/liquid/points" then Some(LiquidPoints)
    else if p == "/liquid/deposits" then Some(LiquidDeposits)
    else if p == "/liquid/withdrawals" then Some(LiquidWithdrawals)
    else None
  }

  /** A wallet-keyed read: the path of the read, with the address inserted verbatim. */
  function ForWallet(c: Client, w: WalletRead, wallet: string): (r: Request)
    ensures r.accept == Json && r.authorization == c.bearerToken
    ensures Queries(r, c, ReadPath(w), [Param("wallet", wallet)])
  {
    Fetch(c, ReadPath(w), [Param("wallet", wallet)], Json)
  }

  /** `operator`. */
  function Operator(c: Client, operatorAddress: string): (r: Request)
    ensures r.accept == Json && r.authorization == c.bearerToken
    ensures Queries(r, c, "/operator", [Param("operator", operatorAddress)])
  {
    Fetch(c, "/operator", [Param("operator", operatorAddress)], Json)
  }

  /** The client's calls whose URL is a fixed path. */
  datatype Route =
    | ClaimRewardsTx | VerifyCheckpointProofsTx | VerifyWithdrawalCredentialsTx

  function RouteEndpoint(route: Route): (e: Endpoint)
    ensures RouteOf(e) == Some(route)
  {
    match route
    case ClaimRewardsTx => Endpoint(Post, "/transaction/claim-rewards")
    case VerifyCheckpointProofsTx => Endpoint(Post, "/transaction/verify-checkpoint-proofs")
    case VerifyWithdrawalCredentialsTx => Endpoint(Post, "/transaction/verify-withdrawal-credentials")
  }

  /** The server's routing table for these calls: the inverse of `RouteEndpoint`. */
  function RouteOf(e: Endpoint): Option<Route>
  {
    if e == Endpoint(Post, "/transaction/claim-rewards") then Some(ClaimRewardsTx)
    else if e == Endpoint(Post, "/transaction/verify-checkpoint-proofs") then Some(VerifyCheckpointProofsTx)
    else if e == Endpoint(Post, "/transaction/verify-withdrawal-credentials") then Some(VerifyWithdrawalCredentialsTx)
    else None
  }

  /** A fixed-path call: with the JSON accept header and the token, and routed back to the same call. */
  function Call(c: Client, route: Route): (r: Request)
    ensures r.accept == Json && r.authorization == c.bearerToken
    ensures EndpointOf(r, c.baseUrl).Some? && RouteOf(EndpointOf(r, c.baseUrl).value) == Some(route)
  {
    var e := RouteEndpoint(route);
    Send(c, e.verb, e.path, Json)
  }
}
