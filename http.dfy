/**
 * The request every client method hands to the HTTP agent: a verb, a URL, the
 * `accept` header and the `Authorization` header. Every `KilnXClient` has the
 * same two fields, `bearer_token` and `base_url`, so one `Client` stands for
 * all of them; each chain's `From<&Kiln>` is `Derive` with that chain's prefix.
 */
module Http {
  import opened Wrappers
  import opened Text
  import opened Query
  import opened Builder

  datatype Verb = Get | Post | Put | Delete

  /** The two `accept` headers the crate sends. */
  datatype Accept = Json | OctetStream

  function AcceptHeader(a: Accept): (h: string)
    ensures a.Json? <==> h == "application/json; charset=utf-8"
    ensures a.OctetStream? <==> h == "application/octet-stream"
  {
    match a
    case Json => "application/json; charset=utf-8"
    case OctetStream => "application/octet-stream"
  }

  /** What is sent; request bodies (JSON) are not part of this model. */
  datatype Request = Request(verb: Verb, url: string, accept: Accept, authorization: string)

  datatype Client = Client(bearerToken: string, baseUrl: string)

  const BearerScheme: string := "Bearer "

  /** The API token back out of an `Authorization` header value. */
  function ApiTokenOf(header: string): (t: Option<string>)
    ensures t.Some? <==> |header| >= |BearerScheme| && header[..|BearerScheme|] == BearerScheme
    ensures t.Some? ==> header == BearerScheme + t.value
  {
    if |header| >= |BearerScheme| && header[..|BearerScheme|] == BearerScheme
    then Some(header[|BearerScheme|..]) else None
  }

  /** `From<&Kiln>` of a chain client: the handle's URL followed by the chain prefix, and the handle's token under the Bearer scheme. */
  function Derive(k: Kiln, prefix: string): (c: Client)
    ensures c.baseUrl == k.baseUrl + prefix
    ensures ApiTokenOf(c.bearerToken) == Some(k.apiToken)
  {
    var header := BearerScheme + k.apiToken;
    assert header[..|BearerScheme|] == BearerScheme;
    assert header[|BearerScheme|..] == k.apiToken;
    Client(header, k.baseUrl + prefix)
  }

  /** A verb and a path below a client's base URL: what a server routes on. */
  datatype Endpoint = Endpoint(verb: Verb, path: string)

  /** The endpoint a request reaches, read relative to `base`; `None` when the URL is not below `base`. */
  function EndpointOf(r: Request, base: string): (e: Option<Endpoint>)
    ensures e.Some? <==> |base| <= |r.url| && r.url[..|base|] == base
    ensures e.Some? ==> e.value.verb == r.verb && r.url == base + e.value.path
  {
    if |base| <= |r.url| && r.url[..|base|] == base
    then Some(Endpoint(r.verb, r.url[|base|..])) else None
  }

  /** A request whose URL is the client's base followed by a fixed path. */
  function Send(c: Client, verb: Verb, path: string, accept: Accept): (r: Request)
    ensures r.verb == verb && r.accept == accept && r.authorization == c.bearerToken
    ensures EndpointOf(r, c.baseUrl) == Some(Endpoint(verb, path))
    ensures r.url == c.baseUrl <==> path == ""
  {
    var url := c.baseUrl + path;
    assert url[..|c.baseUrl|] == c.baseUrl && url[|c.baseUrl|..] == path;
    Request(verb, url, accept, c.bearerToken)
  }

  /** A request under a directory of the base URL is also read relative to that directory. */
  lemma SendUnder(c: Client, verb: Verb, dir: string, leaf: string, accept: Accept)
    ensures EndpointOf(Send(c, verb, dir + leaf, accept), c.baseUrl + dir) == Some(Endpoint(verb, leaf))
  {
    var url := Send(c, verb, dir + leaf, accept).url;
    assert url == (c.baseUrl + dir) + leaf;
    assert url[..|c.baseUrl + dir|] == c.baseUrl + dir;
    assert url[|c.baseUrl + dir|..] == leaf;
  }

  /**
   * `r` is a GET whose URL a server reads as the target path `target` and
   * exactly the parameters `ps`, in order, whenever the target holds no '?'
   * or '#' and no key or value holds a character the query syntax reserves.
   */
  predicate Targets(r: Request, target: string, ps: seq<Param>)
  {
    r.verb == Get &&
    ('?' !in target && '#' !in target && Clean(ps) ==> PathOf(r.url) == target && Params(r.url) == ps)
  }

  /** `r` is the GET of `path + "?" + Encode(ps)` below the client's base URL, which a server reads as `Targets` says. */
  predicate Queries(r: Request, c: Client, path: string, ps: seq<Param>)
  {
    EndpointOf(r, c.baseUrl) == Some(Endpoint(Get, path + "?" + Encode(ps))) && Targets(r, c.baseUrl + path, ps)
  }

  /** As `Queries`, for a query opened with "?&". */
  predicate QueriesAfterAmpersand(r: Request, c: Client, path: string, ps: seq<Param>)
  {
    EndpointOf(r, c.baseUrl) == Some(Endpoint(Get, path + "?&" + Encode(ps))) && Targets(r, c.baseUrl + path, ps)
  }

  /** A GET of the client's base followed by `path`, with the query `ps`. */
  function Fetch(c: Client, path: string, ps: seq<Param>, accept: Accept): (r: Request)
    ensures Queries(r, c, path, ps)
    ensures r.accept == accept && r.authorization == c.bearerToken
  {
    var target := c.baseUrl + path;
    ParamsWithQuery(target, ps);
    var url := WithQuery(target, ps);
    assert url == c.baseUrl + (path + "?" + Encode(ps));
    assert url[..|c.baseUrl|] == c.baseUrl;
    assert url[|c.baseUrl|..] == path + "?" + Encode(ps);
    Request(Get, url, accept, c.bearerToken)
  }

  /** As `Fetch`, for the templates that open their query with "?&": the empty first piece is skipped, so a server reads the same parameters. */
  function FetchAfterAmpersand(c: Client, path: string, ps: seq<Param>, accept: Accept): (r: Request)
    ensures QueriesAfterAmpersand(r, c, path, ps)
    ensures r.accept == accept && r.authorization == c.bearerToken
  {
    var target := c.baseUrl + path;
    ParamsAfterAmpersand(target, ps);
    var url := target + "?&" + Encode(ps);
    assert url == c.baseUrl + (path + "?&" + Encode(ps));
    assert url[..|c.baseUrl|] == c.baseUrl;
    assert url[|c.baseUrl|..] == path + "?&" + Encode(ps);
    Request(Get, url, accept, c.bearerToken)
  }

  /** Comma-joined rendering of a list value. */
  function Csv(xs: seq<string>): string
  {
    Join(xs, ',')
  }

  /** The comma-joined list of plain items is plain: the comma is no reserved character. */
  lemma CsvPlain(xs: seq<string>)
    requires forall k :: 0 <= k < |xs| ==> Plain(xs[k])
    ensures Plain(Csv(xs))
  {
    var s := Csv(xs);
    forall j | 0 <= j < |s| ensures !Reserved(s[j]) {
      assert s[j] in s;
    }
  }

  lemma BoolIsPlain(b: bool)
    ensures Plain(BoolToString(b))
  {
    assert IsLowerWord(BoolToString(b));
  }

  lemma NatIsPlain(n: nat)
    ensures Plain(NatToString(n))
  {
    assert IsDigits(NatToString(n));
  }

  function Numerals(ns: seq<nat>): (r: seq<string>)
    ensures |r| == |ns| && forall k :: 0 <= k < |ns| ==> r[k] == NatToString(ns[k])
  {
    seq(|ns|, k requires 0 <= k < |ns| => NatToString(ns[k]))
  }

  /** A list of numbers read back from its comma-joined decimal rendering. */
  lemma NumeralsRoundTrip(ns: seq<nat>)
    requires |ns| >= 1
    ensures |Split(Csv(Numerals(ns)), ',')| == |ns|
    ensures forall k :: 0 <= k < |ns| ==> ParseNat(Split(Csv(Numerals(ns)), ',')[k]) == Some(ns[k])
  {
    var r := Numerals(ns);
    assert Separable(r, ',') by {
      forall k | 0 <= k < |r| ensures ',' !in r[k] {
        assert IsDigits(r[k]);
      }
    }
    SplitJoin(r, ',');
    forall k | 0 <= k < |ns| ensures ParseNat(r[k]) == Some(ns[k]) {
      ParseNatToString(ns[k]);
    }
  }

  /** The hyphenated lower-case text of a `Uuid`. */
  predicate IsUuidText(s: string)
  {
    |s| == 36 &&
    forall k :: 0 <= k < 36 ==>
      if k == 8 || k == 13 || k == 18 || k == 23 then s[k] == '-'
      else ('0' <= s[k] <= '9' || 'a' <= s[k] <= 'f')
  }

  type Uuid = s: string | IsUuidText(s) witness "00000000-0000-0000-0000-000000000000"

  /** A list of ids read back from its comma-joined rendering: a non-empty list comes back whole. */
  lemma UuidsRoundTrip(ids: seq<Uuid>)
    requires |ids| >= 1
    ensures Split(Csv(ids), ',') == ids
  {
    assert Separable(ids, ',') by {
      forall k | 0 <= k < |ids| ensures ',' !in ids[k] {
        assert IsUuidText(ids[k]);
      }
    }
    SplitJoin(ids, ',');
  }

  lemma UuidsArePlain(ids: seq<Uuid>)
    ensures Plain(Csv(ids))
  {
    forall k | 0 <= k < |ids| ensures Plain(ids[k]) {
      assert IsUuidText(ids[k]);
    }
    CsvPlain(ids);
  }

  /** The path "/<id>" followed by `leaf`, as `format!("{}/{}", base, id)` builds it. */
  function UnderId(id: Uuid, leaf: string): string
  {
    "/" + id + leaf
  }

  /** The id segment and what follows it, read back from a path that starts with "/<id>". */
  function SplitId(p: string): (r: Option<(Uuid, string)>)
    ensures r.Some? ==> p == UnderId(r.value.0, r.value.1)
  {
    if |p| >= 37 && p[0] == '/' && IsUuidText(p[1..37]) then
      var id: Uuid := p[1..37];
      assert p == "/" + id + p[37..];
      Some((id, p[37..]))
    else None
  }

  lemma SplitUnderId(id: Uuid, leaf: string)
    ensures SplitId(UnderId(id, leaf)) == Some((id, leaf))
  {
    var p := UnderId(id, leaf);
    assert p[1..37] == id;
    assert p[37..] == leaf;
  }

  /** The `Display` text of a `chrono::DateTime<Utc>`; its format is not part of this model. */
  type DateTime = string
}
