/** src/endpoint.rs: the contract every HTTP endpoint fulfils, the assembly
    of an authenticated request from it, and the status classifier and
    error enum that `EndpointDef!` generates for an endpoint. */
module Endpoint {
  import opened Wrappers

  newtype byte = x: int | 0 <= x < 256

  /** Raw bytes: request and response bodies, credential header values. */
  type Bytes = seq<byte>

  /** hyper's `StatusCode`: a three-digit HTTP status. */
  type StatusCode = s: int | 100 <= s <= 999 witness 200

  /** The HTTP request methods. */
  datatype Method = Get | Post | Put | Patch | Delete

  /** `hyper::http::Error`, opaque: a request the builder refused. */
  datatype HttpError = HttpError(reason: string)

  /** `serde_json::Error`, opaque. */
  datatype JsonError = JsonError(reason: string)

  /** `hyper::Error`, opaque: a failure of the transport. */
  datatype HyperError = HyperError(reason: string)

  /** `EndpointError`: why a request could not be assembled. */
  datatype EndpointError = Http(http: HttpError) | Json(json: JsonError)

  /** A URL split into what `request` keeps (scheme, host, port) and what it
      replaces (path, query). */
  datatype Url = Url(scheme: string, host: string, port: Option<nat>, path: string, query: Option<string>)

  /** The two authentication headers, `HDR_KEY_ID` and `HDR_SECRET`, whose
      names are defined outside the model. */
  datatype HeaderName = KeyId | Secret

  datatype Header = Header(name: HeaderName, value: Bytes)

  /** A `Request<Body>` as the builder produces it. */
  datatype Request = Request(httpMethod: Method, uri: Url, headers: seq<Header>, body: Bytes)

  /** The `Endpoint` trait as a record of its functions. */
  datatype Endpoint<!I, O, E> = Endpoint(
    httpMethod: Method,
    path: I -> string,
    query: I -> Option<string>,
    body: I -> Result<Bytes, JsonError>,
    parse: Bytes -> Result<O, E>)

  /** An endpoint that keeps the trait's defaults and supplies only `path`
      and `parse`: it uses GET, emits no query and sends an empty body. */
  function Define<I(!new), O, E>(path: I -> string, parse: Bytes -> Result<O, E>): (ep: Endpoint<I, O, E>)
    ensures ep.httpMethod == Get && ep.path == path && ep.parse == parse
    ensures forall input :: ep.query(input).None?
    ensures forall input :: ep.body(input) == Ok([])
  {
    Endpoint(Get, path, _ => None, _ => Ok([]), parse)
  }

  /** What the request builder makes of a method, a URL and headers: the
      error it reports, if it refuses them. The builder itself (URI syntax,
      header value rules) is external, so it is a parameter here. */
  type Builder = (Method, Url, seq<Header>) -> Option<HttpError>

  /** `Endpoint::request`. The base URL is copied, its path set to the
      endpoint's path and its query to the endpoint's query (no query clears
      the base URL's one); both credentials go into their headers verbatim.
      The body is computed before the builder reports, so a body that fails
      to serialise takes precedence over a builder error. */
  method BuildRequest<I, O, E>(ep: Endpoint<I, O, E>, apiBase: Url, keyId: Bytes, secret: Bytes, input: I, builder: Builder)
    returns (r: Result<Request, EndpointError>)
    ensures ep.body(input).Err? ==> r == Err(EndpointError.Json(ep.body(input).error))
    ensures ep.body(input).Ok? ==>
      var uri := apiBase.(path := ep.path(input), query := ep.query(input));
      var headers := [Header(KeyId, keyId), Header(Secret, secret)];
      match builder(ep.httpMethod, uri, headers)
      case Some(e) => r == Err(Http(e))
      case None => r == Ok(Request(ep.httpMethod, uri, headers, ep.body(input).value))
    ensures r.Ok? ==>
      && r.value.httpMethod == ep.httpMethod
      && r.value.uri.scheme == apiBase.scheme
      && r.value.uri.host == apiBase.host
      && r.value.uri.port == apiBase.port
      && r.value.uri.path == ep.path(input)
      && r.value.uri.query == ep.query(input)
      && r.value.headers == [Header(KeyId, keyId), Header(Secret, secret)]
  {
    var url := apiBase;
    url := url.(path := ep.path(input));
    url := url.(query := ep.query(input));
    var headers := [Header(KeyId, keyId), Header(Secret, secret)];
    var body := ep.body(input);
    if body.Err? {
      return Err(EndpointError.Json(body.error));
    }
    var refused := builder(ep.httpMethod, url, headers);
    if refused.Some? {
      return Err(Http(refused.value));
    }
    return Ok(Request(ep.httpMethod, url, headers, body.value));
  }

  /** `ConvertResult`: a crate-local wrapper around a `Result`. */
  datatype ConvertResult<T, E> = ConvertResult(result: Result<T, E>)

  /** `ConvertResult::into`: unwraps exactly what was wrapped. */
  function Into<T, E>(c: ConvertResult<T, E>): (r: Result<T, E>)
    ensures ConvertResult(r) == c
  {
    c.result
  }

  /** `Into` is a left inverse of wrapping: no result is altered on its way to the client. */
  lemma IntoWrapped<T, E>(r: Result<T, E>)
    ensures Into(ConvertResult(r)) == r
  {
  }

  // ---------------------------------------------------------------------
  // The status classifier generated by `EndpointDef!` / `EndpointDefImpl!`.
  // ---------------------------------------------------------------------

  /** One arm `STATUS => Variant` of an endpoint's error table. */
  datatype Entry = Entry(status: StatusCode, variant: string)

  /** The arguments of `EndpointDef!`: the success statuses and the error table. */
  datatype EndpointDef = EndpointDef(okStatuses: seq<StatusCode>, errTable: seq<Entry>)

  /** The two arms `EndpointDef!` puts in front of every error table. */
  const Universal: seq<Entry> := [Entry(401, "AuthenticationFailed"), Entry(429, "RateLimitExceeded")]

  /** The error enum `$err` generated for an endpoint: one variant per table
      arm (named here), plus `UnexpectedStatus`, `Hyper` and `Json`. */
  datatype DefError =
    | Variant(name: string)
    | UnexpectedStatus(status: StatusCode)
    | Hyper(hyper: HyperError)
    | Json(json: JsonError)

  /** The crate-level `Error` an endpoint error converts into (the variants that conversion reaches). */
  datatype CrateError = HttpStatus(code: StatusCode) | CrateHyper(hyper: HyperError) | CrateJson(json: JsonError)

  /** The statuses of an error table, in order. */
  function Statuses(t: seq<Entry>): seq<StatusCode>
  {
    seq(|t|, i requires 0 <= i < |t| => t[i].status)
  }

  /** The variant names of an error table, in order. */
  function Variants(t: seq<Entry>): seq<string>
  {
    seq(|t|, i requires 0 <= i < |t| => t[i].variant)
  }

  /** `i` is the first arm of `t` that matches `status`. */
  ghost predicate FirstArm(t: seq<Entry>, status: StatusCode, i: int)
  {
    0 <= i < |t| && t[i].status == status && forall j :: 0 <= j < i ==> t[j].status != status
  }

  /** The error arms of the generated `match`, tried in order: the variant
      of the first arm whose status matches, if any. */
  function Lookup(t: seq<Entry>, status: StatusCode): (v: Option<string>)
    ensures v.None? <==> status !in Statuses(t)
    ensures v.Some? ==> exists i :: FirstArm(t, status, i) && t[i].variant == v.value
  {
    if t == [] then None
    else if t[0].status == status then
      assert FirstArm(t, status, 0) && Statuses(t)[0] == status;
      Some(t[0].variant)
    else
      var v := Lookup(t[1..], status);
      assert Statuses(t) == [t[0].status] + Statuses(t[1..]);
      if v.Some? then
        assert exists i :: FirstArm(t, status, i) && t[i].variant == v.value by {
          var i :| FirstArm(t[1..], status, i) && t[1..][i].variant == v.value;
          assert FirstArm(t, status, i + 1);
        }
        v
      else v
  }

  /** `EndpointDef!`: the table handed on to `EndpointDefImpl!` is the
      endpoint's own one with the universal arms in front. So 401 and 429
      always classify as `AuthenticationFailed` and `RateLimitExceeded`,
      whatever the endpoint lists, and every other status as the endpoint's
      own table says. */
  function Expand(def: EndpointDef): (impl: EndpointDef)
    ensures impl.okStatuses == def.okStatuses
    ensures |impl.errTable| == |def.errTable| + 2
    ensures impl.errTable[2..] == def.errTable
    ensures Lookup(impl.errTable, 401) == Some("AuthenticationFailed")
    ensures Lookup(impl.errTable, 429) == Some("RateLimitExceeded")
    ensures forall s: StatusCode :: s != 401 && s != 429 ==> Lookup(impl.errTable, s) == Lookup(def.errTable, s)
  {
    var t := Universal + def.errTable;
    assert t[1..][1..] == def.errTable;
    EndpointDef(def.okStatuses, t)
  }

  /** `From<(StatusCode, Vec<u8>)> for ConvertResult` as `EndpointDefImpl!`
      expands it, for the table it is given: success arms first, then the
      error arms in order, then the catch-all. A success status yields
      whatever `parse` makes of the body; any other status never looks at
      the body. */
  function FromStatus<O>(impl: EndpointDef, parse: Bytes -> Result<O, DefError>, status: StatusCode, body: Bytes)
    : (r: ConvertResult<O, DefError>)
    ensures status in impl.okStatuses ==> r.result == parse(body)
    ensures status !in impl.okStatuses && status in Statuses(impl.errTable) ==>
      exists i :: FirstArm(impl.errTable, status, i) && r.result == Err(Variant(impl.errTable[i].variant))
    ensures status !in impl.okStatuses && status !in Statuses(impl.errTable) ==>
      r.result == Err(UnexpectedStatus(status))
  {
    if status in impl.okStatuses then
      match parse(body)
      case Ok(obj) => ConvertResult(Ok(obj))
      case Err(err) => ConvertResult(Err(err))
    else
      match Lookup(impl.errTable, status)
      case Some(v) => ConvertResult(Err(Variant(v)))
      case None => ConvertResult(Err(UnexpectedStatus(status)))
  }

  /** The classifier an endpoint defined with `EndpointDef!` gets: the
      expanded table fed to the `EndpointDefImpl!` classifier. A success
      status yields `parse(body)`; any other status is an error that names
      a variant of an arm for that very status (a universal one or the
      endpoint's own), or is unexpected when no arm has the status. */
  function Classify<O>(def: EndpointDef, parse: Bytes -> Result<O, DefError>, status: StatusCode, body: Bytes)
    : (r: ConvertResult<O, DefError>)
    ensures status in def.okStatuses ==> r.result == parse(body)
    ensures status !in def.okStatuses ==> r.result.Err?
    ensures status !in def.okStatuses && r.result.error.Variant? ==>
      Entry(status, r.result.error.name) in Universal + def.errTable
    ensures status !in def.okStatuses && !r.result.error.Variant? ==>
      && r.result.error == UnexpectedStatus(status)
      && status != 401 && status != 429 && status !in Statuses(def.errTable)
  {
    FromStatus(Expand(def), parse, status, body)
  }

  /** Status 401 is an authentication failure and 429 a rate-limit
      rejection for every endpoint that does not declare them successful,
      even when its own table lists them with another variant. */
  lemma ClassifyUniversal<O>(def: EndpointDef, parse: Bytes -> Result<O, DefError>, body: Bytes)
    ensures 401 !in def.okStatuses ==> Classify(def, parse, 401, body).result == Err(Variant("AuthenticationFailed"))
    ensures 429 !in def.okStatuses ==> Classify(def, parse, 429, body).result == Err(Variant("RateLimitExceeded"))
  {
  }

  /** Classification is total and first-match, and a status that is not a
      success never depends on the body or on `parse`. */
  lemma ClassifyCases<O>(def: EndpointDef, parse: Bytes -> Result<O, DefError>, status: StatusCode, body: Bytes)
    ensures status in def.okStatuses ==> Classify(def, parse, status, body).result == parse(body)
    ensures status !in def.okStatuses ==>
      match Lookup(Expand(def).errTable, status)
      case Some(v) => Classify(def, parse, status, body).result == Err(Variant(v))
      case None => Classify(def, parse, status, body).result == Err(UnexpectedStatus(status))
    ensures status !in def.okStatuses && status != 401 && status != 429 && status !in Statuses(def.errTable) ==>
      Classify(def, parse, status, body).result == Err(UnexpectedStatus(status))
  {
  }

  /** The classification of a status that is not a success depends on the status alone. */
  lemma ClassifyIgnoresBody<O>(def: EndpointDef, parse: Bytes -> Result<O, DefError>, parse': Bytes -> Result<O, DefError>,
                               status: StatusCode, body: Bytes, body': Bytes)
    requires status !in def.okStatuses
    ensures Classify(def, parse, status, body) == Classify(def, parse', status, body')
  {
  }

  /** The generated enum compiles only when no two arms name the same variant. */
  predicate DistinctVariants(t: seq<Entry>)
  {
    forall i, j :: 0 <= i < j < |t| ==> t[i].variant != t[j].variant
  }

  /** An `EndpointDef!` invocation that expands to a well-formed enum. */
  predicate WellFormed(def: EndpointDef)
  {
    DistinctVariants(Expand(def).errTable)
  }

  /** `i` is the first arm of `t` that names `variant`. */
  ghost predicate FirstNamed(t: seq<Entry>, variant: string, i: int)
  {
    0 <= i < |t| && t[i].variant == variant && forall j :: 0 <= j < i ==> t[j].variant != variant
  }

  /** The status of the arm that names `variant`. */
  function StatusOf(t: seq<Entry>, variant: string): (s: StatusCode)
    requires variant in Variants(t)
    ensures exists i :: FirstNamed(t, variant, i) && t[i].status == s
  {
    if t[0].variant == variant then
      assert FirstNamed(t, variant, 0);
      t[0].status
    else
      assert variant in Variants(t[1..]) by {
        var k :| 0 <= k < |t| && Variants(t)[k] == variant;
        assert Variants(t[1..])[k - 1] == variant;
      }
      var s := StatusOf(t[1..], variant);
      assert exists i :: FirstNamed(t, variant, i) && t[i].status == s by {
        var i :| FirstNamed(t[1..], variant, i) && t[1..][i].status == s;
        assert FirstNamed(t, variant, i + 1);
      }
      s
  }

  /** `From<$err> for crate::Error`: a table variant becomes the status of
      its arm, an unexpected status is reported as it is, and transport and
      JSON errors pass through. `e` is a value of the enum generated for `t`. */
  function IntoCrateError(t: seq<Entry>, e: DefError): (r: CrateError)
    requires e.Variant? ==> e.name in Variants(t)
    ensures e.Variant? ==> r.HttpStatus? && Entry(r.code, e.name) in t
    ensures e.UnexpectedStatus? ==> r == HttpStatus(e.status)
    ensures e.Hyper? ==> r == CrateHyper(e.hyper)
    ensures e.Json? ==> r == CrateJson(e.json)
  {
    match e
    case Variant(v) => HttpStatus(StatusOf(t, v))
    case UnexpectedStatus(s) => HttpStatus(s)
    case Hyper(err) => CrateHyper(err)
    case Json(err) => CrateJson(err)
  }

  /** Classify, then convert: every status that is not a success reaches the
      caller as `HttpStatus` of that very status, whichever arm caught it. */
  lemma ClassifyThenConvert<O>(def: EndpointDef, parse: Bytes -> Result<O, DefError>, status: StatusCode, body: Bytes)
    requires WellFormed(def) && status !in def.okStatuses
    ensures var r := Classify(def, parse, status, body).result;
      && r.Err?
      && (r.error.Variant? ==> r.error.name in Variants(Expand(def).errTable))
      && IntoCrateError(Expand(def).errTable, r.error) == HttpStatus(status)
  {
    var t := Expand(def).errTable;
    var r := Classify(def, parse, status, body).result;
    match Lookup(t, status)
    case None =>
    case Some(v) =>
      var i :| FirstArm(t, status, i) && t[i].variant == v;
      assert Variants(t)[i] == v;
      var s := StatusOf(t, v);
      var k :| FirstNamed(t, v, k) && t[k].status == s;
      assert k == i;
  }
}
