/** Building an outgoing request: the URL from base, path and query, the body
    from an optional value, and the fixed header rules. */
module Requests {
  import opened Wrappers
  import opened Text
  import UrlValues
  import HttpHeader

  const HeaderAccessKey := "X-ACCESS-KEY"
  const HeaderContentType := "Content-Type"
  const HeaderAccept := "Accept"
  const ContentTypeJson := "application/json"

  /** `buildURL`: the base URL and the path, followed by `?` and the encoded
      query only when the query has at least one parameter. `encode` stands for
      `url.Values.Encode` (keys sorted, names and values escaped), which is not
      part of this model. */
  function BuildUrl(baseUrl: string, path: string, query: UrlValues.Values,
                    encode: UrlValues.Values -> string): (r: string)
    ensures baseUrl + path <= r
    ensures |query| == 0 ==> r == baseUrl + path
    ensures |query| > 0 ==> r[|baseUrl + path|..] == "?" + encode(query)
  {
    var reqUrl := baseUrl + path;
    if |query| > 0 then reqUrl + "?" + encode(query) else reqUrl
  }

  /** Splits a URL at its first `?` into what precedes it and the raw query
      after it (`None` when there is no `?`), as a URL parser does. */
  function SplitQuery(u: string): (string, Option<string>) {
    var i := IndexOf(u, '?');
    if i < |u| then (u[..i], Some(u[i + 1..])) else (u, None)
  }

  /** When base and path hold no `?`, a parser recovers them and the encoded
      query from the built URL; an empty query leaves no `?` behind. */
  lemma BuildUrlSplits(baseUrl: string, path: string, query: UrlValues.Values,
                       encode: UrlValues.Values -> string)
    requires '?' !in baseUrl + path
    ensures SplitQuery(BuildUrl(baseUrl, path, query, encode))
         == (baseUrl + path, if |query| > 0 then Some(encode(query)) else None)
  {
    var head := baseUrl + path;
    var u := BuildUrl(baseUrl, path, query, encode);
    if |query| > 0 {
      var tail := "?" + encode(query);
      assert u == head + tail;
      IndexOfAfterPrefix(head, tail, '?');
      assert IndexOf(u, '?') == |head|;
      assert u[..|head|] == head;
      assert u[|head| + 1..] == encode(query);
    } else {
      assert IndexOf(u, '?') == |u|;
    }
  }

  /** `marshalBody`: a nil body gives a nil reader and no error; otherwise the
      bytes `marshal` (standing for `json.Marshal`) produces, or its failure
      wrapped with context. */
  function MarshalBody<B>(body: Option<B>, marshal: B -> Result<seq<byte>, string>)
    : (r: Result<Option<seq<byte>>, string>)
    ensures body.None? ==> r == Ok(None)
    ensures r.Ok? ==> (r.value.Some? <==> body.Some?)
    ensures r.Ok? && body.Some? ==> marshal(body.value) == Ok(r.value.value)
    ensures r.Err? <==> body.Some? && marshal(body.value).Err?
    ensures r.Err? ==> r.error == "failed to marshal request body: " + marshal(body.value).error
  {
    match body
    case None => Ok(None)
    case Some(b) =>
      match marshal(b)
      case Err(e) => Err("failed to marshal request body: " + e)
      case Ok(bytes) => Ok(Some(bytes))
  }

  /** An `http.Request` as far as the core touches it: the method (`verb`), URL and
      body are fixed at creation; the header map is updated in place. */
  const DefaultMethod := "GET"

  class Request {
    const verb: string
    const url: string
    const body: Option<seq<byte>>
    var header: HttpHeader.Header

    constructor (verb: string, url: string, body: Option<seq<byte>>)
      ensures this.verb == (if verb == "" then DefaultMethod else verb)
      ensures this.url == url && this.body == body
      ensures header == map[]
    {
      this.verb := if verb == "" then DefaultMethod else verb;
      this.url := url;
      this.body := body;
      header := map[];
    }

    /** `req.Header.Set`. */
    method SetHeader(key: string, value: string)
      modifies this
      ensures header == HttpHeader.Set(old(header), key, value)
    {
      header := HttpHeader.Set(header, key, value);
    }
  }

  /** The headers every request carries, keyed by their canonical names: the
      access key (even when empty) and `Accept: application/json`, plus
      `Content-Type: application/json` exactly when there is a body. */
  function StandardHeaders(accessKey: string, hasBody: bool): HttpHeader.Header {
    map["X-Access-Key" := [accessKey], "Accept" := [ContentTypeJson]]
      + (if hasBody then map["Content-Type" := [ContentTypeJson]] else map[])
  }

  /** The canonical spellings of the three header names the core sets. */
  lemma CanonicalNames()
    ensures HttpHeader.CanonicalKey(HeaderAccessKey) == "X-Access-Key"
    ensures HttpHeader.CanonicalKey(HeaderAccept) == "Accept"
    ensures HttpHeader.CanonicalKey(HeaderContentType) == "Content-Type"
  {
  }

  /** `buildRequest`; like `http.NewRequestWithContext`, an empty method
      becomes GET. `createFailure` is the error `http.NewRequestWithContext`
      returns for these arguments (an invalid method or an unparsable URL),
      which is not part of this model. */
  method BuildRequest(verb: string, reqUrl: string, body: Option<seq<byte>>, accessKey: string,
                      createFailure: Option<string>)
    returns (r: Result<Request, string>)
    ensures createFailure.Some? ==> r == Err("failed to create request: " + createFailure.value)
    ensures createFailure.None? ==> r.Ok? && fresh(r.value)
    ensures r.Ok? ==> r.value.verb == (if verb == "" then DefaultMethod else verb)
    ensures r.Ok? ==> r.value.url == reqUrl && r.value.body == body
    ensures r.Ok? ==> r.value.header == StandardHeaders(accessKey, body.Some?)
  {
    if createFailure.Some? {
      return Err("failed to create request: " + createFailure.value);
    }
    var req := new Request(verb, reqUrl, body);
    CanonicalNames();
    req.SetHeader(HeaderAccessKey, accessKey);
    req.SetHeader(HeaderAccept, ContentTypeJson);
    if body.Some? {
      req.SetHeader(HeaderContentType, ContentTypeJson);
    }
    r := Ok(req);
  }

  /** What a server reads back from the headers of a built request: the
      configured key (under any case spelling of its name), JSON as the
      accepted type, and a content type exactly when a body is sent. */
  lemma StandardHeadersRead(accessKey: string, hasBody: bool, probe: string)
    ensures HttpHeader.Get(StandardHeaders(accessKey, hasBody), HeaderAccessKey) == accessKey
    ensures HttpHeader.SameIgnoringCase(HeaderAccessKey, probe) ==>
      HttpHeader.Get(StandardHeaders(accessKey, hasBody), probe) == accessKey
    ensures HttpHeader.Get(StandardHeaders(accessKey, hasBody), HeaderAccept) == ContentTypeJson
    ensures HttpHeader.Get(StandardHeaders(accessKey, hasBody), HeaderContentType)
         == (if hasBody then ContentTypeJson else "")
    ensures HttpHeader.CanonicalKey(HeaderContentType) in StandardHeaders(accessKey, hasBody) <==> hasBody
  {
    CanonicalNames();
    if HttpHeader.SameIgnoringCase(HeaderAccessKey, probe) {
      HttpHeader.CanonicalKeyIgnoresCase(HeaderAccessKey, probe);
    }
  }
}
