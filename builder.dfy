/**
 * The configured handle `Kiln` and its typestate builder `KilnBuilder<BU, T, Seal>`.
 * Each of the builder's three type parameters becomes a field whose
 * constructor names the marker type; the impl blocks a method lives in
 * become its `requires`, so a call the Rust compiler would reject is a call
 * no caller can make here.
 */
module Builder {
  import opened Wrappers

  /** The handle every chain client is derived from; neither field is normalised. */
  datatype Kiln = Kiln(apiToken: string, baseUrl: string)

  /** `NoUrl` or `BaseUrl(String)`. */
  datatype UrlSlot = NoUrl | BaseUrl(url: string)
  /** `NoToken` or `Token(String)`. */
  datatype TokenSlot = NoToken | Token(token: string)
  /** `NotSealed` or `Sealed`. */
  datatype SealSlot = NotSealed | Sealed

  datatype KilnBuilder = KilnBuilder(baseUrl: UrlSlot, apiToken: TokenSlot, seal: SealSlot)

  /** `KilnBuilder::new()` (and `Kiln::builder()`): nothing set, not sealed. */
  function New(): (b: KilnBuilder)
    ensures b.baseUrl.NoUrl? && b.apiToken.NoToken? && b.seal.NotSealed?
  {
    KilnBuilder(NoUrl, NoToken, NotSealed)
  }

  /** `api_token`: only before sealing; replaces the token, keeps the URL slot. */
  function ApiToken(b: KilnBuilder, token: string): (r: KilnBuilder)
    requires b.seal.NotSealed?
    ensures r.apiToken == Token(token) && r.baseUrl == b.baseUrl && r.seal.NotSealed?
  {
    KilnBuilder(b.baseUrl, Token(token), NotSealed)
  }

  /** `base_url`: only before sealing; replaces the URL, keeps the token slot. */
  function BaseUrlOf(b: KilnBuilder, url: string): (r: KilnBuilder)
    requires b.seal.NotSealed?
    ensures r.baseUrl == BaseUrl(url) && r.apiToken == b.apiToken && r.seal.NotSealed?
  {
    KilnBuilder(BaseUrl(url), b.apiToken, NotSealed)
  }

  /** `seal`: available whatever is set; changes only the seal marker. */
  function Seal(b: KilnBuilder): (r: KilnBuilder)
    requires b.seal.NotSealed?
    ensures r.seal.Sealed? && r.baseUrl == b.baseUrl && r.apiToken == b.apiToken
  {
    KilnBuilder(b.baseUrl, b.apiToken, Sealed)
  }

  /** `build`: needs a URL and a token, sealed or not; it never fails. */
  function Build(b: KilnBuilder): (k: Kiln)
    requires b.baseUrl.BaseUrl? && b.apiToken.Token?
    ensures k.apiToken == b.apiToken.token && k.baseUrl == b.baseUrl.url
  {
    Kiln(b.apiToken.token, b.baseUrl.url)
  }

  /** One call on a builder. */
  datatype Step = SetApiToken(token: string) | SetBaseUrl(url: string) | SealIt

  function Apply(b: KilnBuilder, s: Step): KilnBuilder
    requires b.seal.NotSealed?
  {
    match s
    case SetApiToken(t) => ApiToken(b, t)
    case SetBaseUrl(u) => BaseUrlOf(b, u)
    case SealIt => Seal(b)
  }

  /** A chain of builder calls, or `None` when the type system rejects one of them. */
  function Run(b: KilnBuilder, steps: seq<Step>): Option<KilnBuilder>
    decreases |steps|
  {
    if steps == [] then Some(b)
    else if b.seal.Sealed? then None
    else
      Run(Apply(b, steps[0]), steps[1..])
  }

  /** A chain the compiler accepts: nothing after `seal`. */
  predicate SealLast(steps: seq<Step>)
  {
    forall k :: 0 <= k < |steps| - 1 ==> !steps[k].SealIt?
  }

  /** From an unsealed builder a chain of calls type-checks exactly when nothing follows `seal`. */
  lemma {:induction false} RunAccepts(b: KilnBuilder, steps: seq<Step>)
    requires b.seal.NotSealed?
    ensures Run(b, steps).Some? <==> SealLast(steps)
    decreases |steps|
  {
    if steps != [] {
      var next := Apply(b, steps[0]);
      if steps[0].SealIt? {
        if |steps| > 1 {
          assert !SealLast(steps);
          assert steps[1..] != [];
        }
      } else {
        RunAccepts(next, steps[1..]);
        assert SealLast(steps) <==> SealLast(steps[1..]) by {
          if SealLast(steps[1..]) {
            forall k | 0 <= k < |steps| - 1 ensures !steps[k].SealIt? {
              if k > 0 { assert steps[k] == steps[1..][k - 1]; }
            }
          }
          if SealLast(steps) {
            forall k | 0 <= k < |steps| - 2 ensures !steps[1..][k].SealIt? {
              assert steps[1..][k] == steps[k + 1];
            }
          }
        }
      }
    }
  }

  /** `k` is the position of the last call setting the token. */
  predicate LastTokenAt(steps: seq<Step>, k: int)
  {
    0 <= k < |steps| && steps[k].SetApiToken? &&
    forall j :: k < j < |steps| ==> !steps[j].SetApiToken?
  }

  predicate NoTokenStep(steps: seq<Step>)
  {
    forall j :: 0 <= j < |steps| ==> !steps[j].SetApiToken?
  }

  /** The last `api_token` call wins; without one, the token slot is untouched. Calls to `base_url` and `seal` never change it. */
  lemma {:induction false} RunToken(b: KilnBuilder, steps: seq<Step>, r: KilnBuilder)
    requires Run(b, steps) == Some(r)
    ensures NoTokenStep(steps) ==> r.apiToken == b.apiToken
    ensures forall k :: LastTokenAt(steps, k) ==> r.apiToken == Token(steps[k].token)
    decreases |steps|
  {
    if steps != [] {
      var next := Apply(b, steps[0]);
      var rest := steps[1..];
      RunToken(next, rest, r);
      forall k | LastTokenAt(steps, k) ensures r.apiToken == Token(steps[k].token) {
        if k > 0 {
          assert LastTokenAt(rest, k - 1) by {
            forall j | k - 1 < j < |rest| ensures !rest[j].SetApiToken? { assert rest[j] == steps[j + 1]; }
          }
        } else {
          assert NoTokenStep(rest) by {
            forall j | 0 <= j < |rest| ensures !rest[j].SetApiToken? { assert rest[j] == steps[j + 1]; }
          }
        }
      }
      if NoTokenStep(steps) {
        assert NoTokenStep(rest) by {
          forall j | 0 <= j < |rest| ensures !rest[j].SetApiToken? { assert rest[j] == steps[j + 1]; }
        }
      }
    }
  }

  /** `k` is the position of the last call setting the base URL. */
  predicate LastUrlAt(steps: seq<Step>, k: int)
  {
    0 <= k < |steps| && steps[k].SetBaseUrl? &&
    forall j :: k < j < |steps| ==> !steps[j].SetBaseUrl?
  }

  predicate NoUrlStep(steps: seq<Step>)
  {
    forall j :: 0 <= j < |steps| ==> !steps[j].SetBaseUrl?
  }

  /** The last `base_url` call wins; without one, the URL slot is untouched. */
  lemma {:induction false} RunUrl(b: KilnBuilder, steps: seq<Step>, r: KilnBuilder)
    requires Run(b, steps) == Some(r)
    ensures NoUrlStep(steps) ==> r.baseUrl == b.baseUrl
    ensures forall k :: LastUrlAt(steps, k) ==> r.baseUrl == BaseUrl(steps[k].url)
    decreases |steps|
  {
    if steps != [] {
      var next := Apply(b, steps[0]);
      var rest := steps[1..];
      RunUrl(next, rest, r);
      forall k | LastUrlAt(steps, k) ensures r.baseUrl == BaseUrl(steps[k].url) {
        if k > 0 {
          assert LastUrlAt(rest, k - 1) by {
            forall j | k - 1 < j < |rest| ensures !rest[j].SetBaseUrl? { assert rest[j] == steps[j + 1]; }
          }
        } else {
          assert NoUrlStep(rest) by {
            forall j | 0 <= j < |rest| ensures !rest[j].SetBaseUrl? { assert rest[j] == steps[j + 1]; }
          }
        }
      }
      if NoUrlStep(steps) {
        assert NoUrlStep(rest) by {
          forall j | 0 <= j < |rest| ensures !rest[j].SetBaseUrl? { assert rest[j] == steps[j + 1]; }
        }
      }
    }
  }

  /** Starting from `new()`, `build` type-checks exactly when both setters were called at least once; the handle holds the last values given. */
  lemma BuildAfterRun(steps: seq<Step>, r: KilnBuilder)
    requires Run(New(), steps) == Some(r)
    ensures (r.baseUrl.BaseUrl? && r.apiToken.Token?) <==> !NoTokenStep(steps) && !NoUrlStep(steps)
    ensures forall i, j :: LastTokenAt(steps, i) && LastUrlAt(steps, j) ==>
      r.baseUrl.BaseUrl? && r.apiToken.Token? && Build(r) == Kiln(steps[i].token, steps[j].url)
  {
    RunToken(New(), steps, r);
    RunUrl(New(), steps, r);
    if !NoTokenStep(steps) {
      var i := LastIndexToken(steps);
      assert LastTokenAt(steps, i);
    }
    if !NoUrlStep(steps) {
      var j := LastIndexUrl(steps);
      assert LastUrlAt(steps, j);
    }
  }

  lemma LastIndexToken(steps: seq<Step>) returns (i: int)
    requires !NoTokenStep(steps)
    ensures LastTokenAt(steps, i)
  {
    i := |steps| - 1;
    while !steps[i].SetApiToken?
      invariant 0 <= i < |steps|
      invariant exists j :: 0 <= j <= i && steps[j].SetApiToken?
      invariant forall j :: i < j < |steps| ==> !steps[j].SetApiToken?
      decreases i
    {
      i := i - 1;
    }
  }

  lemma LastIndexUrl(steps: seq<Step>) returns (i: int)
    requires !NoUrlStep(steps)
    ensures LastUrlAt(steps, i)
  {
    i := |steps| - 1;
    while !steps[i].SetBaseUrl?
      invariant 0 <= i < |steps|
      invariant exists j :: 0 <= j <= i && steps[j].SetBaseUrl?
      invariant forall j :: i < j < |steps| ==> !steps[j].SetBaseUrl?
      decreases i
    {
      i := i - 1;
    }
  }

  /** `build` does not need `seal`, and `seal` does not need the fields: both chains below type-check. */
  lemma SealIsOptional(token: string, url: string)
    ensures Run(New(), [SetApiToken(token), SetBaseUrl(url)]).Some?
    ensures Run(New(), [SealIt]) == Some(KilnBuilder(NoUrl, NoToken, Sealed))
    ensures Build(BaseUrlOf(ApiToken(New(), token), url)) == Build(Seal(BaseUrlOf(ApiToken(New(), token), url)))
  {
    RunAccepts(New(), [SetApiToken(token), SetBaseUrl(url)]);
  }
}
