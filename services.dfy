/**
 * The accessors of `Kiln`: one per service, each deriving that service's
 * client from the handle it borrows. Every client gets the handle's token
 * and the handle's URL followed by a prefix no other service uses; the
 * Eigenlayer and onchain prefixes extend the Ethereum one, and their fixed
 * calls never land on an Ethereum route.
 */
module Services {
  import opened Wrappers
  import opened Builder
  import opened Http
  import Account
  import Cardano
  import Cosmos
  import Defi
  import Deployments
  import Dydx
  import Eigenlayer
  import Ethereum
  import EthereumOnchain
  import Injective
  import Kusama
  import Multiversx
  import Near
  import Noble
  import Organisation
  import Polkadot
  import Polygon
  import Solana
  import Tezos

  datatype Service =
    | Accounts | CardanoService | CosmosService | DefiService | DeploymentsService | DydxService
    | EigenlayerService | EthereumService | EthereumOnchainService | InjectiveService | KusamaService
    | MultiversxService | NearService | NobleService | Organisations | PolkadotService | PolygonService
    | SolanaService | TezosService

  /** The path each service's client appends to the handle's URL. */
  function ServicePrefix(s: Service): (p: string)
    ensures ServiceOfPrefix(p) == Some(s)
  {
    match s
    case Accounts => Account.Prefix
    case CardanoService => Cardano.Prefix
    case CosmosService => Cosmos.Prefix
    case DefiService => Defi.Prefix
    case DeploymentsService => Deployments.Prefix
    case DydxService => Dydx.Prefix
    case EigenlayerService => Eigenlayer.Prefix
    case EthereumService => Ethereum.Prefix
    case EthereumOnchainService => EthereumOnchain.Prefix
    case InjectiveService => Injective.Prefix
    case KusamaService => Kusama.Prefix
    case MultiversxService => Multiversx.Prefix
    case NearService => Near.Prefix
    case NobleService => Noble.Prefix
    case Organisations => Organisation.Prefix
    case PolkadotService => Polkadot.Prefix
    case PolygonService => Polygon.Prefix
    case SolanaService => Solana.Prefix
    case TezosService => Tezos.Prefix
  }

  /** The inverse of `ServicePrefix`: no two services share a prefix. */
  function ServiceOfPrefix(p: string): Option<Service>
  {
    if p == "/accounts" then Some(Accounts)
    else if p == "/ada" then Some(CardanoService)
    else if p == "/atom" then Some(CosmosService)
    else if p == "/defi" then Some(DefiService)
    else if p == "/deployments" then Some(DeploymentsService)
    else if p == "/dydx" then Some(DydxService)
    else if p == "/eth/eigenlayer" then Some(EigenlayerService)
    else if p == "/eth" then Some(EthereumService)
    else if p == "/eth/onchain" then Some(EthereumOnchainService)
    else if p == "/inj" then Some(InjectiveService)
    else if p == "/ksm" then Some(KusamaService)
    else if p == "/egld" then Some(MultiversxService)
    else if p == "/near" then Some(NearService)
    else if p == "/noble" then Some(NobleService)
    else if p == "/organisations" then Some(Organisations)
    else if p == "/dot" then Some(PolkadotService)
    else if p == "/pol" then Some(PolygonService)
    else if p == "/sol" then Some(SolanaService)
    else if p == "/xtz" then Some(TezosService)
    else None
  }

  /** The accessor of a service: that client's `From<&Kiln>` (for organisations, its `new`). */
  function ClientFor(k: Kiln, s: Service): (c: Client)
    ensures c.baseUrl == k.baseUrl + ServicePrefix(s)
    ensures ApiTokenOf(c.bearerToken) == Some(k.apiToken)
  {
    match s
    case Accounts => Account.From(k)
    case CardanoService => Cardano.From(k)
    case CosmosService => Cosmos.From(k)
    case DefiService => Defi.From(k)
    case DeploymentsService => Deployments.From(k)
    case DydxService => Dydx.From(k)
    case EigenlayerService => Eigenlayer.From(k)
    case EthereumService => Ethereum.From(k)
    case EthereumOnchainService => EthereumOnchain.From(k)
    case InjectiveService => Injective.From(k)
    case KusamaService => Kusama.From(k)
    case MultiversxService => Multiversx.From(k)
    case NearService => Near.From(k)
    case NobleService => Noble.From(k)
    case Organisations => Organisation.New(k)
    case PolkadotService => Polkadot.From(k)
    case PolygonService => Polygon.From(k)
    case SolanaService => Solana.From(k)
    case TezosService => Tezos.From(k)
  }

  /** Two accessors of one handle give the same base URL exactly when they are the same service. */
  lemma BaseUrlsDistinct(k: Kiln, s: Service, t: Service)
    ensures ClientFor(k, s).baseUrl == ClientFor(k, t).baseUrl <==> s == t
  {
    var u := ClientFor(k, s).baseUrl;
    var v := ClientFor(k, t).baseUrl;
    if u == v {
      assert u[|k.baseUrl|..] == ServicePrefix(s);
      assert v[|k.baseUrl|..] == ServicePrefix(t);
    }
  }

  /** Every accessor of one handle sends the same `Authorization` header. */
  lemma TokenShared(k: Kiln, s: Service, t: Service)
    ensures ClientFor(k, s).bearerToken == ClientFor(k, t).bearerToken
  {
    assert ClientFor(k, s).bearerToken == BearerScheme + k.apiToken;
    assert ClientFor(k, t).bearerToken == BearerScheme + k.apiToken;
  }

  /** No path under "/eigenlayer" or "/onchain" is a fixed route of the Ethereum client. */
  lemma SubtreesMissEthereumRoutes(verb: Verb, p: string)
    ensures Ethereum.RouteOf(Endpoint(verb, "/eigenlayer" + p)) == None
    ensures Ethereum.RouteOf(Endpoint(verb, "/onchain" + p)) == None
  {
    assert ("/eigenlayer" + p)[1] == 'e';
    assert ("/onchain" + p)[1] == 'o';
  }

  /** An Eigenlayer fixed call reaches a URL below the Ethereum client's, but no Ethereum route. */
  lemma EigenlayerCallsMissEthereum(k: Kiln, route: Eigenlayer.Route)
    ensures EndpointOf(Eigenlayer.Call(Eigenlayer.From(k), route), Ethereum.From(k).baseUrl).Some?
    ensures Ethereum.RouteOf(EndpointOf(Eigenlayer.Call(Eigenlayer.From(k), route), Ethereum.From(k).baseUrl).value) == None
  {
    var r := Eigenlayer.Call(Eigenlayer.From(k), route);
    var path := EndpointOf(r, Eigenlayer.From(k).baseUrl).value.path;
    SendUnder(Ethereum.From(k), r.verb, "/eigenlayer", path, r.accept);
    assert r == Send(Ethereum.From(k), r.verb, "/eigenlayer" + path, r.accept);
    SubtreesMissEthereumRoutes(r.verb, path);
  }

  /** The same for the onchain client's fixed calls. */
  lemma OnchainCallsMissEthereum(k: Kiln, route: EthereumOnchain.Route)
    ensures EndpointOf(EthereumOnchain.Call(EthereumOnchain.From(k), route), Ethereum.From(k).baseUrl).Some?
    ensures Ethereum.RouteOf(EndpointOf(EthereumOnchain.Call(EthereumOnchain.From(k), route), Ethereum.From(k).baseUrl).value) == None
  {
    var r := EthereumOnchain.Call(EthereumOnchain.From(k), route);
    var path := EndpointOf(r, EthereumOnchain.From(k).baseUrl).value.path;
    SendUnder(Ethereum.From(k), r.verb, "/onchain", path, r.accept);
    assert r == Send(Ethereum.From(k), r.verb, "/onchain" + path, r.accept);
    SubtreesMissEthereumRoutes(r.verb, path);
  }
}
