/**
 * The request types of the shared SDK module and the URLs the chain clients
 * build from them with the same `format!` template: rewards (`RewardRequest`,
 * used by seven chains), validator-keyed stakes, operations and reports (the
 * Cosmos-SDK chains and MultiversX), and the status and decode reads every
 * transaction-capable chain exposes.
 */
module Shared {
  import opened Text
  import opened Query
  import opened Http
  import opened Types

  /** `RewardRequest`: the two variants differ only in their last fields. */
  datatype RewardRequest =
    | DailyRewards(stakesAddresses: seq<string>, wallets: seq<string>, poolIds: seq<string>, accounts: seq<Uuid>,
                   format: ResponseFormat, startDate: DateTime, endDate: DateTime, includeUsd: bool)
    | EpochRewards(stakesAddresses: seq<string>, wallets: seq<string>, poolIds: seq<string>, accounts: seq<Uuid>,
                   format: ResponseFormat, startDate: DateTime, endDate: DateTime, startEpoch: U64, endEpoch: U64)

  /** The seven parameters both variants send, in template order (the key is "stake_addresses", the field `stakes_addresses`). */
  function RewardsCommon(q: RewardRequest): (ps: seq<Param>)
    ensures |ps| == 7
    ensures ps[0] == Param("stake_addresses", Csv(q.stakesAddresses)) && ps[1] == Param("pool_ids", Csv(q.poolIds))
    ensures ps[2] == Param("wallets", Csv(q.wallets)) && ps[3] == Param("accounts", Csv(q.accounts))
    ensures ps[4] == Param("format", FormatText(q.format))
    ensures ps[5] == Param("start_date", q.startDate) && ps[6] == Param("end_date", q.endDate)
  {
    [Param("stake_addresses", Csv(q.stakesAddresses)), Param("pool_ids", Csv(q.poolIds)),
     Param("wallets", Csv(q.wallets)), Param("accounts", Csv(q.accounts)),
     Param("format", FormatText(q.format)),
     Param("start_date", q.startDate), Param("end_date", q.endDate)]
  }

  /** `get_rewards` of the clients taking a `RewardRequest`: Daily ends with include_usd, Epoch with the two epoch bounds. */
  function Rewards(c: Client, q: RewardRequest): (r: Request)
    ensures r.accept == Json && r.authorization == c.bearerToken
    ensures q.DailyRewards? ==>
      Queries(r, c, "/rewards", RewardsCommon(q) + [Param("include_usd", BoolToString(q.includeUsd))])
    ensures q.EpochRewards? ==>
      Queries(r, c, "/rewards",
              RewardsCommon(q) + [Param("start_epoch", NatToString(q.startEpoch)), Param("end_epoch", NatToString(q.endEpoch))])
  {
    match q
    case DailyRewards(_, _, _, _, _, _, _, includeUsd) =>
      Fetch(c, "/rewards", RewardsCommon(q) + [Param("include_usd", BoolToString(includeUsd))], Json)
    case EpochRewards(_, _, _, _, _, _, _, startEpoch, endEpoch) =>
      Fetch(c, "/rewards", RewardsCommon(q) + [Param("start_epoch", NatToString(startEpoch)), Param("end_epoch", NatToString(endEpoch))], Json)
  }

  /** Every value the rewards query renders is plain when the caller's lists and dates are, so a server reads every parameter back. */
  lemma RewardsQueryIsClean(q: RewardRequest)
    requires forall k :: 0 <= k < |q.stakesAddresses| ==> Plain(q.stakesAddresses[k])
    requires forall k :: 0 <= k < |q.poolIds| ==> Plain(q.poolIds[k])
    requires forall k :: 0 <= k < |q.wallets| ==> Plain(q.wallets[k])
    requires Plain(q.startDate) && Plain(q.endDate)
    ensures q.DailyRewards? ==> Clean(RewardsCommon(q) + [Param("include_usd", BoolToString(q.includeUsd))])
    ensures q.EpochRewards? ==>
      Clean(RewardsCommon(q) + [Param("start_epoch", NatToString(q.startEpoch)), Param("end_epoch", NatToString(q.endEpoch))])
  {
    RewardsCommonIsClean(q);
    if q.DailyRewards? {
      IncludeUsdIsClean(q.includeUsd);
      CleanAppend(RewardsCommon(q), [Param("include_usd", BoolToString(q.includeUsd))]);
    } else {
      EpochsAreClean(q.startEpoch, q.endEpoch);
      CleanAppend(RewardsCommon(q), [Param("start_epoch", NatToString(q.startEpoch)), Param("end_epoch", NatToString(q.endEpoch))]);
    }
  }

  lemma IncludeUsdIsClean(b: bool)
    ensures Clean([Param("include_usd", BoolToString(b))])
  {
    BoolIsPlain(b);
    assert Plain("include_usd") && '=' !in "include_usd";
  }

  lemma EpochsAreClean(start: nat, end: nat)
    ensures Clean([Param("start_epoch", NatToString(start)), Param("end_epoch", NatToString(end))])
  {
    EpochKeysAreClean();
    NatIsPlain(start);
    NatIsPlain(end);
  }

  lemma EpochKeysAreClean()
    ensures Plain("start_epoch") && '=' !in "start_epoch" && Plain("end_epoch") && '=' !in "end_epoch"
  {
  }


  lemma RewardsCommonIsClean(q: RewardRequest)
    requires forall k :: 0 <= k < |q.stakesAddresses| ==> Plain(q.stakesAddresses[k])
    requires forall k :: 0 <= k < |q.poolIds| ==> Plain(q.poolIds[k])
    requires forall k :: 0 <= k < |q.wallets| ==> Plain(q.wallets[k])
    requires Plain(q.startDate) && Plain(q.endDate)
    ensures Clean(RewardsCommon(q))
  {
    RewardsKeysAreClean();
    CsvPlain(q.stakesAddresses);
    CsvPlain(q.poolIds);
    CsvPlain(q.wallets);
    UuidsArePlain(q.accounts);
    assert Plain(FormatText(q.format));
  }

  lemma RewardsKeysAreClean()
    ensures Plain("stake_addresses") && '=' !in "stake_addresses" && Plain("pool_ids") && '=' !in "pool_ids"
    ensures Plain("wallets") && '=' !in "wallets" && Plain("accounts") && '=' !in "accounts"
    ensures Plain("format") && '=' !in "format" && Plain("start_date") && '=' !in "start_date"
    ensures Plain("end_date") && '=' !in "end_date"
  {
  }

  /** `GetStakesRequest`. */
  datatype GetStakesRequest = GetStakesRequest(validators: seq<string>, delegators: seq<string>, accounts: seq<Uuid>)

  /** `get_stakes` of the Cosmos, dYdX and Injective clients. */
  function ValidatorStakes(c: Client, q: GetStakesRequest): (r: Request)
    ensures r.accept == Json && r.authorization == c.bearerToken
    ensures Queries(r, c, "/stakes",
      [Param("validators", Csv(q.validators)), Param("delegators", Csv(q.delegators)), Param("accounts", Csv(q.accounts))])
  {
    Fetch(c, "/stakes", [Param("validators", Csv(q.validators)), Param("delegators", Csv(q.delegators)), Param("accounts", Csv(q.accounts))], Json)
  }

  /** `ValidatorOperationsRequest` (and the field-for-field identical `DydxOperationsRequest`). */
  datatype ValidatorOperationsRequest = ValidatorOperationsRequest(
    validators: seq<string>, delegators: seq<string>, authz: bool, accounts: seq<Uuid>, startDate: DateTime, endDate: DateTime)

  /** `get_operations` of the Cosmos, dYdX and Injective clients: authz is sent second, ahead of the delegators it follows in the struct. */
  function ValidatorOperations(c: Client, q: ValidatorOperationsRequest): (r: Request)
    ensures r.accept == Json && r.authorization == c.bearerToken
    ensures Queries(r, c, "/operations",
      [Param("validators", Csv(q.validators)), Param("authz", BoolToString(q.authz)), Param("delegators", Csv(q.delegators)),
       Param("accounts", Csv(q.accounts)), Param("start_date", q.startDate), Param("end_date", q.endDate)])
  {
    Fetch(c, "/operations",
      [Param("validators", Csv(q.validators)), Param("authz", BoolToString(q.authz)), Param("delegators", Csv(q.delegators)),
       Param("accounts", Csv(q.accounts)), Param("start_date", q.startDate), Param("end_date", q.endDate)], Json)
  }

  /** `ReportsRequest`. */
  datatype ReportsRequest = ReportsRequest(delegators: seq<string>, validators: seq<string>, accounts: seq<Uuid>)

  /** `get_reports` of the Cosmos, dYdX, Injective and MultiversX clients: validators first whatever the field order, and a binary download. */
  function ValidatorReports(c: Client, q: ReportsRequest): (r: Request)
    ensures r.accept == OctetStream && r.authorization == c.bearerToken
    ensures Queries(r, c, "/reports",
      [Param("validators", Csv(q.validators)), Param("delegators", Csv(q.delegators)), Param("accounts", Csv(q.accounts))])
  {
    Fetch(c, "/reports", [Param("validators", Csv(q.validators)), Param("delegators", Csv(q.delegators)), Param("accounts", Csv(q.accounts))], OctetStream)
  }

  /** `get_tx_status`: the hash is the one parameter, inserted verbatim. */
  function TxStatus(c: Client, txHash: string): (r: Request)
    ensures r.accept == Json && r.authorization == c.bearerToken
    ensures Queries(r, c, "/transaction/status", [Param("tx_hash", txHash)])
  {
    Fetch(c, "/transaction/status", [Param("tx_hash", txHash)], Json)
  }

  /** `get_tx_decoding` (`decode_tx`): the serialized transaction is the one parameter, inserted verbatim. */
  function TxDecode(c: Client, txSerialized: string): (r: Request)
    ensures r.accept == Json && r.authorization == c.bearerToken
    ensures Queries(r, c, "/transaction/decode", [Param("tx_serialized", txSerialized)])
  {
    Fetch(c, "/transaction/decode", [Param("tx_serialized", txSerialized)], Json)
  }

  /** A value holding '&' reaches the server cut short, whatever the endpoint: a hash `h&k=x` (say "…&block=7") reads as two parameters. */
  lemma StatusHashWithAmpersand(c: Client, h: string, k: string, x: string)
    requires '?' !in c.baseUrl
    requires Clean([Param("tx_hash", h), Param(k, x)])
    ensures Params(TxStatus(c, h + "&" + k + "=" + x).url) == [Param("tx_hash", h), Param(k, x)]
  {
    var r := TxStatus(c, h + "&" + k + "=" + x);
    TxStatusQuery(c, h + "&" + k + "=" + x);
    assert Params(r.url) == Decode(Encode([Param("tx_hash", h + "&" + k + "=" + x)]));
    AmpersandSplitsValue("tx_hash", h, k, x);
  }

  lemma TxStatusQuery(c: Client, v: string)
    requires '?' !in c.baseUrl
    ensures QueryOf(TxStatus(c, v).url) == Encode([Param("tx_hash", v)])
  {
    var target := c.baseUrl + "/transaction/status";
    assert '?' !in target;
    IndexOfSplitsUrl(target, Encode([Param("tx_hash", v)]));
  }
}
