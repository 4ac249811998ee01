/**
 * The request engine of the Asaas client: the configuration, the default
 * headers, the request URL (base address, path and query string) and the
 * envelope a request yields. The HTTP round trip and `json_decode` are
 * parameters (`Net`); everything between them is modelled.
 */
module Engine {
  import opened Strings
  import opened PhpValues
  import opened UrlEncoding

  /** The client's configuration map. */
  datatype Config = Config(
    accessToken: string,
    production: bool,
    debug: bool,
    version: int,
    upload: bool,
    decode: bool)

  /** The versions of the API the client accepts. */
  predicate SupportedVersion(v: int) { v == 2 || v == 3 }

  const TokenHeaderPrefix := "access_token: "
  const JsonContentType := "Content-Type: application/json"
  const MultipartContentType := "Content-Type: multipart/form-data"

  /** The default headers: the access token, then the content type, multipart exactly in upload mode. */
  function Headers(c: Config): (h: seq<string>)
    ensures |h| == 2
    ensures TokenHeaderPrefix <= h[0] && h[0][|TokenHeaderPrefix|..] == c.accessToken
    ensures h[1] in {JsonContentType, MultipartContentType}
    ensures h[1] == MultipartContentType <==> c.upload
  {
    [TokenHeaderPrefix + c.accessToken, if !c.upload then JsonContentType else MultipartContentType]
  }

  // ---------------------------------------------------------------- the URL

  const ProductionRoot := "https://www.asaas.com/api/v"
  const SandboxRoot := "https://sandbox.asaas.com/api/v"

  /** The API address for the configured environment and version. */
  function BaseUrl(c: Config): (r: string)
    ensures c.production ==> ProductionRoot <= r && r[|ProductionRoot|..] == IntToString(c.version)
    ensures !c.production ==> SandboxRoot <= r && r[|SandboxRoot|..] == IntToString(c.version)
  {
    (if c.production then ProductionRoot else SandboxRoot) + IntToString(c.version)
  }

  /** The path with one '/' in front, added only when it does not start with one already. */
  function NormalizePath(path: string): (p: string)
    ensures |p| > 0 && p[0] == '/'
    ensures p == path || p == "/" + path
    ensures |path| > 0 && path[0] == '/' ==> p == path
  {
    if |path| > 0 && path[0] == '/' then path else "/" + path
  }

  /** Normalising twice changes nothing more. */
  lemma NormalizePathIdempotent(path: string)
    ensures NormalizePath(NormalizePath(path)) == NormalizePath(path)
  {
  }

  /** The request URL: base address, normalised path, then the query string. */
  function Url(c: Config, path: string, pairs: seq<(string, string)>): (r: string)
    ensures BaseUrl(c) + NormalizePath(path) <= r
    ensures |pairs| == 0 <==> r == BaseUrl(c) + NormalizePath(path)
    ensures |pairs| > 0 ==> r[|BaseUrl(c) + NormalizePath(path)|] == '?'
  {
    BaseUrl(c) + NormalizePath(path) + Query(pairs)
  }

  /** The two roots differ at their ninth character, so no string starts with both. */
  lemma RootsExclusive(u: string)
    ensures !(SandboxRoot <= u && ProductionRoot <= u)
  {
    assert SandboxRoot[8] == 's' && ProductionRoot[8] == 'w';
  }

  /** A request goes to the sandbox host exactly when the client is not in production. */
  lemma SandboxUnlessProduction(c: Config, path: string, pairs: seq<(string, string)>)
    ensures !c.production <==> SandboxRoot <= Url(c, path, pairs)
    ensures c.production <==> ProductionRoot <= Url(c, path, pairs)
  {
    var root := if c.production then ProductionRoot else SandboxRoot;
    var b := BaseUrl(c);
    var u := Url(c, path, pairs);
    assert b[..|root|] == root;
    assert u[..|b|] == b;
    assert u[..|root|] == b[..|root|];
    RootsExclusive(u);
  }

  // ---------------------------------------------------------- query string

  /** `isset` and `!empty` of both `name` and `value`: the filters that reach the query string. */
  predicate Survives(filter: Value)
    ensures Survives(filter) ==> filter.Arr?
    ensures Survives(filter) ==> Field(filter, "name") !in {Null, Str(""), Str("0"), Int(0), Bool(false)}
    ensures Survives(filter) ==> Field(filter, "value") !in {Null, Str(""), Str("0"), Int(0), Bool(false)}
  {
    var name := Field(filter, "name");
    var value := Field(filter, "value");
    IsSet(name) && !IsEmpty(name) && IsSet(value) && !IsEmpty(value)
  }

  /**
   * What one filter contributes: nothing when it does not survive, its name
   * and value as strings when it does, and a TypeError (`Fatal`) when
   * `urlencode` is handed an array or an object.
   */
  function Pair(filter: Value): (r: Result<Option<(string, string)>>)
    ensures r == Ok(None) <==> !Survives(filter)
    ensures r.Ok? && r.value.Some? ==>
      ToPhpString(Field(filter, "name")) == Some(r.value.value.0) &&
      ToPhpString(Field(filter, "value")) == Some(r.value.value.1)
  {
    if !Survives(filter) then Ok(None)
    else
      match (ToPhpString(Field(filter, "name")), ToPhpString(Field(filter, "value")))
      case (Some(n), Some(v)) => Ok(Some((n, v)))
      case _ => Fatal
  }

  /** The name/value strings of the surviving filters, in input order, as the `foreach` of `execute` collects them. */
  function Pairs(filters: seq<Value>): (r: Result<seq<(string, string)>>)
    ensures r.Ok? ==> |r.value| <= |filters|
    decreases |filters|
  {
    if |filters| == 0 then Ok([])
    else
      match Pairs(filters[..|filters| - 1])
      case Fatal => Fatal
      case Ok(ps) =>
        match Pair(filters[|filters| - 1])
        case Fatal => Fatal
        case Ok(None) => Ok(ps)
        case Ok(Some(p)) => Ok(ps + [p])
  }

  /** The filters that survive, in input order. */
  function Survivors(filters: seq<Value>): (r: seq<Value>)
    ensures |r| <= |filters|
    ensures forall x :: x in r <==> x in filters && Survives(x)
    decreases |filters|
  {
    if |filters| == 0 then []
    else
      var init := filters[..|filters| - 1];
      var last := filters[|filters| - 1];
      assert filters == init + [last];
      Survivors(init) + (if Survives(last) then [last] else [])
  }

  /** Some filter of the list is refused by `urlencode`. */
  predicate HasRefused(filters: seq<Value>)
  {
    exists i :: 0 <= i < |filters| && Pair(filters[i]).Fatal?
  }

  lemma HasRefusedSnoc(init: seq<Value>, last: Value)
    ensures HasRefused(init + [last]) <==> HasRefused(init) || Pair(last).Fatal?
  {
    var fs := init + [last];
    if HasRefused(init) {
      var i :| 0 <= i < |init| && Pair(init[i]).Fatal?;
      assert fs[i] == init[i];
    }
    if Pair(last).Fatal? {
      assert fs[|init|] == last;
    }
    if HasRefused(fs) {
      var i :| 0 <= i < |fs| && Pair(fs[i]).Fatal?;
      if i < |init| {
        assert init[i] == fs[i];
      }
    }
  }

  /** A filter list is refused exactly when one of its filters is. */
  lemma {:induction false} PairsFatal(filters: seq<Value>)
    ensures Pairs(filters).Fatal? <==> HasRefused(filters)
    decreases |filters|
  {
    if |filters| > 0 {
      var init := filters[..|filters| - 1];
      var last := filters[|filters| - 1];
      PairsFatal(init);
      assert filters == init + [last];
      HasRefusedSnoc(init, last);
    }
  }

  /** Otherwise the pairs are exactly those of the survivors, one each, in order. */
  lemma {:induction false} PairsOfSurvivors(filters: seq<Value>)
    requires Pairs(filters).Ok?
    ensures |Pairs(filters).value| == |Survivors(filters)|
    ensures forall i :: 0 <= i < |Survivors(filters)| ==>
      Pair(Survivors(filters)[i]) == Ok(Some(Pairs(filters).value[i]))
    decreases |filters|
  {
    if |filters| > 0 {
      var init := filters[..|filters| - 1];
      var last := filters[|filters| - 1];
      PairsOfSurvivors(init);
      var ps := Pairs(init).value;
      var ss := Survivors(init);
      if Survives(last) {
        var p := Pair(last).value.value;
        assert Pairs(filters).value == ps + [p];
        assert Survivors(filters) == ss + [last];
        forall i | 0 <= i < |Survivors(filters)|
          ensures Pair(Survivors(filters)[i]) == Ok(Some(Pairs(filters).value[i]))
        {
          if i < |ss| {
            assert Survivors(filters)[i] == ss[i];
            assert Pairs(filters).value[i] == ps[i];
          }
        }
      } else {
        assert Survivors(filters) == ss;
      }
    }
  }

  /** Appending a filter that survives appends its pair last. */
  lemma PairsAppend(filters: seq<Value>, f: Value, p: (string, string))
    requires Pairs(filters).Ok?
    requires Pair(f) == Ok(Some(p))
    ensures Pairs(filters + [f]) == Ok(Pairs(filters).value + [p])
  {
    assert (filters + [f])[..|filters|] == filters;
  }

  /** Appending a filter that does not survive leaves the pairs as they were. */
  lemma PairsAppendDropped(filters: seq<Value>, f: Value)
    requires !Survives(f)
    ensures Pairs(filters + [f]) == Pairs(filters)
  {
    assert (filters + [f])[..|filters|] == filters;
  }

  /** `urlencode(name) . "=" . urlencode(value)`. */
  function EncodePair(p: (string, string)): (r: string)
  {
    UrlEncode(p.0) + "=" + UrlEncode(p.1)
  }

  function EncodePairs(ps: seq<(string, string)>): (r: seq<string>)
    ensures |r| == |ps|
    ensures forall i :: 0 <= i < |ps| ==> r[i] == EncodePair(ps[i])
  {
    if |ps| == 0 then [] else [EncodePair(ps[0])] + EncodePairs(ps[1..])
  }

  /** Encoding a list one pair longer adds that pair's encoding last. */
  lemma EncodePairsSnoc(ps: seq<(string, string)>, p: (string, string))
    ensures EncodePairs(ps + [p]) == EncodePairs(ps) + [EncodePair(p)]
  {
    var l := EncodePairs(ps + [p]);
    var r := EncodePairs(ps) + [EncodePair(p)];
    assert |l| == |r|;
    forall i | 0 <= i < |l| ensures l[i] == r[i] {
      assert (ps + [p])[i] == if i < |ps| then ps[i] else p;
    }
  }

  /** One refused filter anywhere refuses the whole list. */
  lemma RefusedFilter(filters: seq<Value>, i: int)
    requires 0 <= i < |filters| && Pair(filters[i]).Fatal?
    ensures Pairs(filters).Fatal?
  {
    PairsFatal(filters);
  }

  /** The query string: '?' and the encoded pairs joined by '&', or nothing at all when there are none. */
  function Query(ps: seq<(string, string)>): (q: string)
    ensures q == "" <==> |ps| == 0
    ensures |ps| > 0 ==> q[0] == '?' && q[1..] == Join(EncodePairs(ps), "&")
  {
    if |ps| == 0 then "" else "?" + Join(EncodePairs(ps), "&")
  }

  /** One encoded pair holds no '&' and splits on '=' into the encoded name and value. */
  lemma EncodedPairReadsBack(p: (string, string))
    ensures '&' !in EncodePair(p)
    ensures Split(EncodePair(p), '=') == [UrlEncode(p.0), UrlEncode(p.1)]
  {
    var halves := [UrlEncode(p.0), UrlEncode(p.1)];
    EncodedChars(p.0);
    EncodedChars(p.1);
    assert EncodePair(p) == Join(halves, "=");
    JoinAvoids(halves, "=", '&');
    SplitJoin(halves, '=');
  }

  /**
   * The query string reads back as the pairs it was built from: it is empty
   * exactly when there are no pairs, and otherwise splitting after the '?'
   * on '&' and then on '=' yields each encoded name and value, in order.
   */
  lemma QueryReadsBack(ps: seq<(string, string)>)
    ensures Query(ps) == "" <==> |ps| == 0
    ensures |ps| > 0 ==>
      Query(ps)[0] == '?' &&
      Split(Query(ps)[1..], '&') == EncodePairs(ps) &&
      forall i :: 0 <= i < |ps| ==>
        Split(Split(Query(ps)[1..], '&')[i], '=') == [UrlEncode(ps[i].0), UrlEncode(ps[i].1)]
  {
    if |ps| > 0 {
      var parts := EncodePairs(ps);
      forall i | 0 <= i < |parts| ensures '&' !in parts[i] {
        EncodedPairReadsBack(ps[i]);
      }
      SplitJoin(parts, '&');
      assert Query(ps)[1..] == Join(parts, "&");
      forall i | 0 <= i < |ps|
        ensures Split(parts[i], '=') == [UrlEncode(ps[i].0), UrlEncode(ps[i].1)]
      {
        EncodedPairReadsBack(ps[i]);
      }
    }
  }

  // ------------------------------------------------------- request and reply

  datatype HttpMethod = GET | POST | PUT | DELETE

  /** What travels in the request body: nothing, the JSON encoding of an array, or the array as multipart form fields. */
  datatype Payload = NoPayload | JsonPayload(fields: seq<Entry>) | FormPayload(fields: seq<Entry>)

  datatype Request = Request(verb: HttpMethod, url: string, headers: seq<string>, payload: Payload)

  /** What the transport hands back: the status (0 when no response came), the raw text and the transfer details. */
  datatype Reply = Reply(status: int, raw: string, info: Value)

  /** The outside world: the HTTP round trip and `json_decode`. */
  datatype Net = Net(send: Request -> Reply, jsonDecode: string -> Json)

  datatype Body = Decoded(json: Json) | Raw(text: string)

  /** The array `execute` returns: `body`, `httpCode`, and `info` in debug mode. */
  datatype Envelope = Envelope(body: Body, httpCode: int, info: Option<Value>)

  /** `$body->name` on an envelope body: a raw string has no properties. */
  function BodyProp(b: Body, name: string): Json
  {
    if b.Decoded? then Prop(b.json, name) else JNull
  }

  /** GET and DELETE send no body; POST and PUT send JSON, or form fields in upload mode. */
  function PayloadFor(c: Config, m: HttpMethod, body: seq<Entry>): (p: Payload)
    ensures p.NoPayload? <==> m == GET || m == DELETE
    ensures p.FormPayload? <==> (m == POST || m == PUT) && c.upload
    ensures !p.NoPayload? ==> p.fields == body
  {
    match m
    case GET => NoPayload
    case DELETE => NoPayload
    case _ => if !c.upload then JsonPayload(body) else FormPayload(body)
  }

  /**
   * The envelope for a reply: the body is decoded when decoding is on or the
   * status is not 200, and left raw otherwise; the status is always there,
   * and the transfer details exactly in debug mode.
   */
  function MakeEnvelope(c: Config, reply: Reply, net: Net): (e: Envelope)
    ensures e.httpCode == reply.status
    ensures e.body.Decoded? <==> c.decode || reply.status != 200
    ensures e.body.Decoded? ==> e.body.json == net.jsonDecode(reply.raw)
    ensures e.body.Raw? ==> e.body.text == reply.raw
    ensures e.info.Some? <==> c.debug
    ensures e.info.Some? ==> e.info.value == reply.info
  {
    Envelope(
      if c.decode || reply.status != 200 then Decoded(net.jsonDecode(reply.raw)) else Raw(reply.raw),
      reply.status,
      if c.debug then Some(reply.info) else None)
  }

  /** Turning decoding off only changes what a 200 reply looks like. */
  lemma DecodeMattersOnlyFor200(c: Config, reply: Reply, net: Net)
    ensures reply.status != 200 ==>
      MakeEnvelope(c.(decode := false), reply, net) == MakeEnvelope(c.(decode := true), reply, net)
    ensures reply.status == 200 ==>
      MakeEnvelope(c.(decode := false), reply, net).body == Raw(reply.raw)
  {
  }

  /** The request a call sends, once the query pairs are known. */
  function MakeRequest(c: Config, m: HttpMethod, path: string, body: seq<Entry>,
                       ps: seq<(string, string)>, extra: seq<string>): (r: Request)
    ensures |r.headers| == 2 + |extra|
    ensures r.headers[..2] == Headers(c) && r.headers[2..] == extra
  {
    Request(m, Url(c, path, ps), Headers(c) + extra, PayloadFor(c, m, body))
  }

  /**
   * One call of `get`, `post`, `put` or `delete`: a filter `urlencode`
   * refuses ends it before anything is sent; otherwise the request is sent
   * once and its reply becomes the envelope.
   */
  function Call(c: Config, m: HttpMethod, path: string, body: seq<Entry>,
                filters: seq<Value>, extra: seq<string>, net: Net): (r: Result<Envelope>)
    ensures r.Fatal? <==> Pairs(filters).Fatal?
    ensures r.Ok? ==> r.value.httpCode == net.send(MakeRequest(c, m, path, body, Pairs(filters).value, extra)).status
  {
    match Pairs(filters)
    case Fatal => Fatal
    case Ok(ps) => Ok(MakeEnvelope(c, net.send(MakeRequest(c, m, path, body, ps, extra)), net))
  }
}
