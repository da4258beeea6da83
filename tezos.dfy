/**
 * `KilnTezosClient`: the "/xtz" client. Its status read is the one that
 * sends a second parameter, the block number, after the transaction hash.
 */
module Tezos {
  import opened Wrappers
  import opened Text
  import opened Query
  import opened Builder
  import opened Http

  const Prefix: string := "/xtz"

  /** `From<&Kiln>`. */
  function From(k: Kiln): (c: Client)
    ensures c.baseUrl == k.baseUrl + "/xtz"
    ensures ApiTokenOf(c.bearerToken) == Some(k.apiToken)
  {
    Derive(k, Prefix)
  }

  /** `TezosGetStakesRequest`. */
  datatype StakesRequest = StakesRequest(wallets: seq<string>, accounts: seq<Uuid>, validators: seq<string>)

  /** `get_stakes`: validators first, whatever the field order. */
  function Stakes(c: Client, q: StakesRequest): (r: Request)
    ensures r.accept == Json && r.authorization == c.bearerToken
    ensures Queries(r, c, "/stakes",
      [Param("validators", Csv(q.validators)), Param("wallets", Csv(q.wallets)), Param("accounts", Csv(q.accounts))])
  {
    Fetch(c, "/stakes",
      [Param("validators", Csv(q.validators)), Param("wallets", Csv(q.wallets)), Param("accounts", Csv(q.accounts))], Json)
  }

  /** `TezosOperationsRequest`. */
  datatype OperationsRequest = OperationsRequest(
    wallets: seq<string>, accounts: seq<Uuid>, validators: seq<string>, startDate: DateTime, endDate: DateTime)

  /** `get_operations`. */
  function Operations(c: Client, q: OperationsRequest): (r: Request)
    ensures r.accept == Json && r.authorization == c.bearerToken
    ensures Queries(r, c, "/operations",
      [Param("validators", Csv(q.validators)), Param("wallets", Csv(q.wallets)), Param("accounts", Csv(q.accounts)),
       Param("start_date", q.startDate), Param("end_date", q.endDate)])
  {
    Fetch(c, "/operations",
      [Param("validators", Csv(q.validators)), Param("wallets", Csv(q.wallets)), Param("accounts", Csv(q.accounts)),
       Param("start_date", q.startDate), Param("end_date", q.endDate)], Json)
  }

  /** `TezosReportsRequest`. */
  datatype ReportsRequest = ReportsRequest(wallets: seq<string>, accounts: seq<Uuid>)

  /** `get_reports`: a binary download. */
  function Reports(c: Client, q: ReportsRequest): (r: Request)
    ensures r.accept == OctetStream && r.authorization == c.bearerToken
    ensures Queries(r, c, "/reports", [Param("wallets", Csv(q.wallets)), Param("accounts", Csv(q.accounts))])
  {
    Fetch(c, "/reports", [Param("wallets", Csv(q.wallets)), Param("accounts", Csv(q.accounts))], OctetStream)
  }

  /** `TezosTxStatusRequest`. */
  datatype TxStatusRequest = TxStatusRequest(txHash: string, block: U64)

  /** `get_tx_status`: the hash, then the block in decimal. */
  function TxStatus(c: Client, q: TxStatusRequest): (r: Request)
    ensures r.accept == Json && r.authorization == c.bearerToken
    ensures Queries(r, c, "/transaction/status",
      [Param("tx_hash", q.txHash), Param("block", NatToString(q.block))])
  {
    Fetch(c, "/transaction/status", [Param("tx_hash", q.txHash), Param("block", NatToString(q.block))], Json)
  }

  /** A server reads the hash and the block number back from a status request whose hash is plain. */
  lemma StatusBlockReadsBack(c: Client, q: TxStatusRequest)
    requires '?' !in c.baseUrl && '#' !in c.baseUrl && Plain(q.txHash)
    ensures |Params(TxStatus(c, q).url)| == 2
    ensures Params(TxStatus(c, q).url)[0].value == q.txHash
    ensures ParseNat(Params(TxStatus(c, q).url)[1].value) == Some(q.block)
  {
    var ps := [Param("tx_hash", q.txHash), Param("block", NatToString(q.block))];
    StatusQueryIsClean(q);
    assert '?' !in c.baseUrl + "/transaction/status" && '#' !in c.baseUrl + "/transaction/status";
    assert Params(TxStatus(c, q).url) == ps;
    ParseNatToString(q.block);
  }

  lemma StatusQueryIsClean(q: TxStatusRequest)
    requires Plain(q.txHash)
    ensures Clean([Param("tx_hash", q.txHash), Param("block", NatToString(q.block))])
  {
    assert Plain("tx_hash") && '=' !in "tx_hash";
    assert Plain("block") && '=' !in "block";
    NatIsPlain(q.block);
  }

  /** `get_tx_decoding`. */
  function TxDecode(c: Client, txSerialized: string): (r: Request)
    ensures r.accept == Json && r.authorization == c.bearerToken
    ensures Queries(r, c, "/transaction/decode", [Param("tx_serialized", txSerialized)])
  {
    Fetch(c, "/transaction/decode", [Param("tx_serialized", txSerialized)], Json)
  }

  /** `TezosTxStatus`: strum reads the variant names, not serde's snake case. */
  datatype OperationStatus = Applied | Failed | Skipped | Backtracked

  function OperationStatusName(s: OperationStatus): string
  {
    match s
    case Applied => "Applied"
    case Failed => "Failed"
    case Skipped => "Skipped"
    case Backtracked => "Backtracked"
  }

  /** `TezosTxStatus::from_str`: exactly the four names, each to its own variant. */
  function ParseOperationStatus(s: string): (r: Option<OperationStatus>)
    ensures r.Some? ==> OperationStatusName(r.value) == s
    ensures forall v :: OperationStatusName(v) == s ==> r == Some(v)
  {
    if s == "Applied" then Some(Applied)
    else if s == "Failed" then Some(Failed)
    else if s == "Skipped" then Some(Skipped)
    else if s == "Backtracked" then Some(Backtracked)
    else None
  }
  /** `OperationStatusName` gives distinct statuses distinct names. */
  lemma OperationStatusNameInjective(a: OperationStatus, b: OperationStatus)
    ensures OperationStatusName(a) == OperationStatusName(b) <==> a == b
  {
    assert ParseOperationStatus(OperationStatusName(a)) == Some(a) && ParseOperationStatus(OperationStatusName(b)) == Some(b);
  }


  /** The client's calls whose URL is a fixed path. */
  datatype Route =
    | NetworkStats
    | DelegateTx | UndelegateTx | StakeTx | UnstakeTx | FinalizeUnstakeTx
    | PrepareTx | BroadcastTx

  function RouteEndpoint(route: Route): (e: Endpoint)
    ensures RouteOf(e) == Some(route)
  {
    match route
    case NetworkStats => Endpoint(Get, "/network-stats")
    case DelegateTx => Endpoint(Post, "/transaction/delegate")
    case UndelegateTx => Endpoint(Post, "/transaction/undelegate")
    case StakeTx => Endpoint(Post, "/transaction/stake")
    case UnstakeTx => Endpoint(Post, "/transaction/unstake")
    case FinalizeUnstakeTx => Endpoint(Post, "/transaction/finalize-unstake")
    case PrepareTx => Endpoint(Post, "/transaction/prepare")
    case BroadcastTx => Endpoint(Post, "/transaction/broadcast")
  }

  /** The server's routing table for these calls: the inverse of `RouteEndpoint`. */
  function RouteOf(e: Endpoint): Option<Route>
  {
    if e == Endpoint(Get, "/network-stats") then Some(NetworkStats)
    else if e == Endpoint(Post, "/transaction/delegate") then Some(DelegateTx)
    else if e == Endpoint(Post, "/transaction/undelegate") then Some(UndelegateTx)
    else if e == Endpoint(Post, "/transaction/stake") then Some(StakeTx)
    else if e == Endpoint(Post, "/transaction/unstake") then Some(UnstakeTx)
    else if e == Endpoint(Post, "/transaction/finalize-unstake") then Some(FinalizeUnstakeTx)
    else if e == Endpoint(Post, "/transaction/prepare") then Some(PrepareTx)
    else if e == Endpoint(Post, "/transaction/broadcast") then Some(BroadcastTx)
    else None
  }

  /** A fixed-path call: with the JSON accept header and the token, and routed back to the same call. */
  function Call(c: Client, route: Route): (r: Request)
    ensures r.accept == Json && r.authorization == c.bearerToken
    ensures EndpointOf(r, c.baseUrl).Some? && RouteOf(EndpointOf(r, c.baseUrl).value) == Some(route)
  {
    var e := RouteEndpoint(route);
    Send(c, e.verb, e.path, Json)
  }
}
