/**
 * Query strings as the client writes them with `format!` ("k1=v1&k2=v2…",
 * values interpolated verbatim, no percent-encoding), and the partner a
 * server applies to read them back: split on '&', skip empty pieces, split
 * each piece at its first '='. This reader is the
 * application/x-www-form-urlencoded parser of section 5.1 of the WHATWG URL
 * Standard on text that holds none of '+', '%' and '#' (that parser reads
 * '+' as a space and '%' as an escape, and a '#' ends the query of a URL);
 * `Clean` keeps those characters out of keys and values.
 */
module Query {
  import opened Text

  datatype Param = Param(key: string, value: string)

  /** `key=value`. */
  function Pair(p: Param): (s: string)
    ensures s == p.key + "=" + p.value
    ensures '=' in s
    ensures forall c :: c != '=' ==> (c in s <==> c in p.key || c in p.value)
  {
    p.key + "=" + p.value
  }

  function Pairs(ps: seq<Param>): (r: seq<string>)
    ensures |r| == |ps| && forall k :: 0 <= k < |ps| ==> r[k] == Pair(ps[k])
  {
    seq(|ps|, k requires 0 <= k < |ps| => Pair(ps[k]))
  }

  /** The query text: the pairs joined by '&'. */
  function Encode(ps: seq<Param>): string
  {
    Join(Pairs(ps), '&')
  }

  /** One piece of a query split at its first '=' (a piece without '=' has an empty value). */
  function DecodePair(piece: string): (p: Param)
    ensures '=' !in p.key
    ensures '=' in piece ==> Pair(p) == piece
    ensures '=' !in piece ==> p == Param(piece, "")
  {
    if '=' in piece then
      var i := IndexOf(piece, '=');
      assert piece == piece[..i] + "=" + piece[i + 1..];
      Param(piece[..i], piece[i + 1..])
    else Param(piece, "")
  }

  function DecodePieces(pieces: seq<string>): (ps: seq<Param>)
    ensures |ps| <= |pieces|
  {
    if pieces == [] then []
    else (if pieces[0] == "" then [] else [DecodePair(pieces[0])]) + DecodePieces(pieces[1..])
  }

  /** What a server reads out of a query string. */
  function Decode(q: string): seq<Param>
  {
    DecodePieces(Split(q, '&'))
  }

  /** The characters a form reader does not take literally: '&' separates pairs, '+' stands for a space, '%' opens an escape and '#' ends the query. */
  predicate Reserved(ch: char)
  {
    ch == '&' || ch == '+' || ch == '%' || ch == '#'
  }

  /** Text a form reader takes literally. */
  predicate Plain(s: string)
  {
    forall k :: 0 <= k < |s| ==> !Reserved(s[k])
  }

  /** Pairs that survive the trip: no reserved character anywhere, no '=' in a key. */
  predicate Clean(ps: seq<Param>)
  {
    forall k :: 0 <= k < |ps| ==> CleanParam(ps[k])
  }

  predicate CleanParam(p: Param)
  {
    Plain(p.key) && '=' !in p.key && Plain(p.value)
  }

  lemma CleanAppend(ps: seq<Param>, qs: seq<Param>)
    requires Clean(ps) && Clean(qs)
    ensures Clean(ps + qs)
  {
    forall k | 0 <= k < |ps + qs| ensures CleanParam((ps + qs)[k]) {
      if k >= |ps| { assert (ps + qs)[k] == qs[k - |ps|]; }
    }
  }

  lemma DecodePairOfPair(p: Param)
    requires '=' !in p.key
    ensures DecodePair(Pair(p)) == p
  {
    IndexOfPrefix(p.key, '=', p.value);
    var s := Pair(p);
    assert s[..|p.key|] == p.key;
    assert s[|p.key| + 1..] == p.value;
  }

  lemma {:induction false} DecodePiecesOfPairs(ps: seq<Param>)
    requires Clean(ps)
    ensures DecodePieces(Pairs(ps)) == ps
  {
    if ps != [] {
      var pieces := Pairs(ps);
      assert pieces[0] != "" by { assert '=' in pieces[0]; }
      DecodePairOfPair(ps[0]);
      assert pieces[1..] == Pairs(ps[1..]);
      DecodePiecesOfPairs(ps[1..]);
      assert ps == [ps[0]] + ps[1..];
    }
  }

  /** Decoding an encoded query gives back every pair, in order. */
  lemma DecodeEncode(ps: seq<Param>)
    requires Clean(ps)
    ensures Decode(Encode(ps)) == ps
  {
    var pieces := Pairs(ps);
    if ps == [] {
      assert Split("", '&') == [""];
    } else {
      assert Separable(pieces, '&') by {
        forall k | 0 <= k < |pieces| ensures '&' !in pieces[k] {
          assert '&' !in ps[k].key && '&' !in ps[k].value;
        }
      }
      SplitJoin(pieces, '&');
      DecodePiecesOfPairs(ps);
    }
  }

  /** An empty piece before the first pair, as in "?&wallets=…", is skipped. */
  lemma DecodeLeadingAmpersand(q: string)
    ensures Decode("&" + q) == Decode(q)
  {
    var s := "&" + q;
    assert s[0] == '&';
    assert s[1..] == q;
    assert Split(s, '&') == [""] + Split(q, '&');
  }

  /** Without percent-encoding, an '&' inside a value starts a new parameter on the server's side. */
  lemma AmpersandSplitsValue(key: string, a: string, b: string, c: string)
    requires Clean([Param(key, a), Param(b, c)])
    ensures Decode(Encode([Param(key, a + "&" + b + "=" + c)])) == [Param(key, a), Param(b, c)]
  {
    var two := [Param(key, a), Param(b, c)];
    assert Pairs(two) == [Pair(two[0])] + [Pair(two[1])];
    JoinCons(Pair(two[0]), [Pair(two[1])], '&');
    assert Encode([Param(key, a + "&" + b + "=" + c)]) == Encode(two);
    DecodeEncode(two);
  }

  /** The path part of a URL: everything before the first '?'. */
  function PathOf(url: string): string
  {
    if '?' in url then url[..IndexOf(url, '?')] else url
  }

  /** The query part of a URL: everything after the first '?'. */
  function QueryOf(url: string): string
  {
    if '?' in url then url[IndexOf(url, '?') + 1..] else ""
  }

  /** The parameters a server reads from a URL. */
  function Params(url: string): seq<Param>
  {
    Decode(QueryOf(url))
  }

  /** `path?query`. */
  function WithQuery(path: string, ps: seq<Param>): (url: string)
    ensures '?' !in path ==> PathOf(url) == path && QueryOf(url) == Encode(ps)
  {
    var url := path + "?" + Encode(ps);
    IndexOfSplitsUrl(path, Encode(ps));
    url
  }

  lemma IndexOfSplitsUrl(path: string, q: string)
    ensures '?' !in path ==> PathOf(path + "?" + q) == path && QueryOf(path + "?" + q) == q
  {
    if '?' !in path {
      var url := path + "?" + q;
      IndexOfPrefix(path, '?', q);
      assert url[..|path|] == path;
      assert url[|path| + 1..] == q;
    }
  }

  /** A server reading a URL built by `WithQuery` gets the path and every pair back. */
  lemma ParamsWithQuery(path: string, ps: seq<Param>)
    ensures '?' !in path && Clean(ps) ==> PathOf(WithQuery(path, ps)) == path && Params(WithQuery(path, ps)) == ps
  {
    if Clean(ps) { DecodeEncode(ps); }
  }

  /** The same for a query opened with "?&": the empty first piece is skipped. */
  lemma ParamsAfterAmpersand(path: string, ps: seq<Param>)
    ensures '?' !in path && Clean(ps) ==>
      PathOf(path + "?&" + Encode(ps)) == path && Params(path + "?&" + Encode(ps)) == ps
  {
    var q := "&" + Encode(ps);
    assert path + "?&" + Encode(ps) == path + "?" + q;
    IndexOfSplitsUrl(path, q);
    DecodeLeadingAmpersand(Encode(ps));
    if Clean(ps) { DecodeEncode(ps); }
  }
}
