/**
 * `KilnKusamaClient`: the "/ksm" client. Its methods build their URLs with
 * the same code as the Polkadot client's, so the functions of the
 * `Polkadot` module applied to this client are its methods; what differs is
 * the prefix alone.
 */
module Kusama {
  import opened Wrappers
  import opened Builder
  import opened Http
  import Shared
  import Polkadot

  const Prefix: string := "/ksm"

  /** `From<&Kiln>`. */
  function From(k: Kiln): (c: Client)
    ensures c.baseUrl == k.baseUrl + "/ksm"
    ensures ApiTokenOf(c.bearerToken) == Some(k.apiToken)
  {
    Derive(k, Prefix)
  }

  /** For every method, what the Kusama client appends to its base URL is what the Polkadot client appends to its own. */
  lemma SameSuffixesAsPolkadot(
    k: Kiln, stakes: Polkadot.StakesRequest, rewards: Polkadot.RewardRequest, operations: Polkadot.OperationsRequest,
    reports: Polkadot.ReportsRequest, t: Polkadot.StakingTx, route: Polkadot.Route, txHash: string, txSerialized: string)
    ensures EndpointOf(Polkadot.Stakes(From(k), stakes), From(k).baseUrl)
         == EndpointOf(Polkadot.Stakes(Polkadot.From(k), stakes), Polkadot.From(k).baseUrl)
    ensures EndpointOf(Polkadot.Rewards(From(k), rewards), From(k).baseUrl)
         == EndpointOf(Polkadot.Rewards(Polkadot.From(k), rewards), Polkadot.From(k).baseUrl)
    ensures EndpointOf(Polkadot.Operations(From(k), operations), From(k).baseUrl)
         == EndpointOf(Polkadot.Operations(Polkadot.From(k), operations), Polkadot.From(k).baseUrl)
    ensures EndpointOf(Polkadot.Reports(From(k), reports), From(k).baseUrl)
         == EndpointOf(Polkadot.Reports(Polkadot.From(k), reports), Polkadot.From(k).baseUrl)
    ensures EndpointOf(Polkadot.Transaction(From(k), t), From(k).baseUrl)
         == EndpointOf(Polkadot.Transaction(Polkadot.From(k), t), Polkadot.From(k).baseUrl)
    ensures EndpointOf(Polkadot.Call(From(k), route), From(k).baseUrl)
         == EndpointOf(Polkadot.Call(Polkadot.From(k), route), Polkadot.From(k).baseUrl)
    ensures EndpointOf(Shared.TxStatus(From(k), txHash), From(k).baseUrl)
         == EndpointOf(Shared.TxStatus(Polkadot.From(k), txHash), Polkadot.From(k).baseUrl)
    ensures EndpointOf(Shared.TxDecode(From(k), txSerialized), From(k).baseUrl)
         == EndpointOf(Shared.TxDecode(Polkadot.From(k), txSerialized), Polkadot.From(k).baseUrl)
  {
  }
}
