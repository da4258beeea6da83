/**
 * `KilnDeploymentsClient`: the "/deployments" client, one GET on its base
 * URL, and the product-type table of the deployments it lists.
 */
module Deployments {
  import opened Wrappers
  import opened Builder
  import opened Http

  const Prefix: string := "/deployments"

  /** `From<&Kiln>`. */
  function From(k: Kiln): (c: Client)
    ensures c.baseUrl == k.baseUrl + "/deployments"
    ensures ApiTokenOf(c.bearerToken) == Some(k.apiToken)
  {
    Derive(k, Prefix)
  }

  /** `get`: the base URL itself. */
  function List(c: Client): (r: Request)
    ensures r.verb == Get && r.accept == Json && r.authorization == c.bearerToken
    ensures r.url == c.baseUrl
  {
    Send(c, Get, "", Json)
  }

  /** `DeploymentProductType`. */
  datatype ProductType = Defi | Dedicated | Pooling

  /** The serde spelling, snake case, as a response carries it. */
  function ProductTypeJson(t: ProductType): (s: string)
    ensures ProductTypeOfJson(s) == Some(t)
  {
    match t
    case Defi => "defi"
    case Dedicated => "dedicated"
    case Pooling => "pooling"
  }

  function ProductTypeOfJson(s: string): Option<ProductType>
  {
    if s == "defi" then Some(Defi) else if s == "dedicated" then Some(Dedicated) else if s == "pooling" then Some(Pooling) else None
  }
  /** serde reads exactly the snake-case names, each as its own variant. */
  lemma ProductTypeOfJsonExactly(s: string, t: ProductType)
    ensures ProductTypeOfJson(s) == Some(t) <==> s == ProductTypeJson(t)
  {
  }


  /** The strum spelling (`as_ref`), the variant name. */
  function ProductTypeName(t: ProductType): (s: string)
    ensures ParseProductType(s) == Some(t)
  {
    match t
    case Defi => "Defi"
    case Dedicated => "Dedicated"
    case Pooling => "Pooling"
  }

  /** `DeploymentProductType::from_str`. */
  function ParseProductType(s: string): Option<ProductType>
  {
    if s == "Defi" then Some(Defi) else if s == "Dedicated" then Some(Dedicated) else if s == "Pooling" then Some(Pooling) else None
  }
  /** `from_str` accepts exactly the strum names, each for its own variant. */
  lemma ParseProductTypeExactly(s: string, t: ProductType)
    ensures ParseProductType(s) == Some(t) <==> s == ProductTypeName(t)
  {
  }


  /** strum's `from_str` refuses the spelling serde reads and writes, and serde refuses strum's. */
  lemma SpellingsDisagree(t: ProductType)
    ensures ParseProductType(ProductTypeJson(t)) == None
    ensures ProductTypeOfJson(ProductTypeName(t)) == None
  {
  }
}
