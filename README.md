# apca request shaping and response classification, modelled in Dafny

This project models the pure layer of the `apca` crate that sits around its
HTTP endpoints. That layer:

- turns a typed request into an authenticated HTTP request;
- turns an HTTP status and body back into a typed result;
- resolves the market prefix of the market-data paths;
- shapes the list requests for historic trades and quotes, including their
  paths, their query fields and the paging cursor.

Modules, one per source file or shared concept:

- `Wrappers`: `Option` and `Result`.
- `Prefix` (`src/data/v2/prefix.rs`): `MarketPrefix`, its `Display` segment, its default, and its serde name.
- `Data`: opaque stand-ins for types defined outside the modelled files: `usize`, `DateTime<Utc>`, `Feed`, `Num` and `DATA_BASE_URL`.
- `Query`: the field stream that serde's derived `Serialize` hands to the URL encoder. Both list requests build on it.
- `Endpoint` (`src/endpoint.rs`): the `Endpoint` trait as a record of functions, with its defaults; `request` as the method `BuildRequest`; `ConvertResult`; the classifier and error enum that `EndpointDef!`/`EndpointDefImpl!` generate; and the conversion into the crate's `Error`.
- `Pagination`: the paging loop of the tests, written over an abstract `fetch` that stands for client and server.
- `Trades` (`src/data/v2/trades.rs`) and `Quotes` (`src/data/v2/quotes.rs`): `ListReq`, `ListReqInit`, the page types, the `List` status tables, `base_url`, `path`, `query`, and the paging drivers.

Modelling choices:

- A query is the ordered list of `(serde name, value)` fields that the encoder receives.
  - `#[serde(skip)]` removes a field.
  - `skip_serializing_if = "Option::is_none"` removes a `None` field.
  - Any other `None` reaches the encoder as the value `Null`.
  - The encoder's rendering is a function parameter of type `Encoder`.
- `prefix` enters the query under the variant's own name (`Stocks` or `Crypto`). That is how serde serialises a unit variant. It is not the `Display` segment.
- The request builder is external. It is a parameter `builder` that either accepts a method, URL and headers or reports an `HttpError`.
- The two credential header names and `DATA_BASE_URL` are defined in files outside the model. They appear as the opaque tags `KeyId`, `Secret` and `DataBaseUrl`.
- The trades and quotes `List` endpoints are declared with the external `Endpoint!` macro, whose expansion is not part of this model. Their tables are modelled as declared: success `[200]` and `400 => InvalidInput`. They are classified with the `EndpointDef!` semantics of `src/endpoint.rs`, which put 401 and 429 in front.
- The trades path ends in `/bars` (`src/data/v2/trades.rs:147`), although the doc comments name the `/trades` endpoint (`src/data/v2/trades.rs:20`, `:131`). The model follows the code. `Trades.PathIsNotTrades` states the mismatch.
- Three behaviours of the code worth noting:
  - The quotes request declares no skip rule on `page_token` (`src/data/v2/quotes.rs:104-105`), whereas the trades request skips a `None` token (`src/data/v2/trades.rs:49`). The difference exists only in the field stream handed to the encoder: a `None` quotes token reaches it as `Null`. What the encoder then writes is not modelled, and a URL encoder that writes no pair for a `None` value gives the same rendered query for both.
  - The paging loops of the tests issue a fixed number of requests (`src/data/v2/trades.rs:271-277`, `src/data/v2/quotes.rs:253-259`). They do not stop when `next_page_token` is `None`.
  - A body that fails to serialise is reported as `EndpointError::Json` (`src/endpoint.rs:105`).

## Model

| member | source | states |
|---|---|---|
| Prefix.Display | src/data/v2/prefix.rs:9-16 | every market's segment starts and ends with `/` (Stocks is `/v2/stocks/`, Crypto is `/v1beta3/crypto/us/`) |
| Prefix.Default | src/data/v2/prefix.rs:17-21 | the default market resolves to `/v2/stocks/` |
| Prefix.DisplayUnambiguous | src/data/v2/prefix.rs:10-15 | if segment(p) ++ s equals segment(q) ++ t, then p = q and s = t: a path names its market unambiguously |
| Prefix.DisplayInjective | src/data/v2/prefix.rs:10-15 | the prefix mapping is injective |
| Prefix.SerdeName | src/data/v2/prefix.rs:4-8 | the derived `Serialize` writes a unit variant under its own non-empty name; the partner lemma `Prefix.SerdeNameInjective` proves the two names distinct |
| Prefix.SerdeNameInjective | src/data/v2/prefix.rs:4-8 | the serialised variant names of the two markets differ |
| Query.AsQuery | src/data/v2/trades.rs:150-152 | `Ok(Some(to_query(input)?))` is never `Ok(None)`: it is a query exactly when the encoder succeeds, and the encoder's error otherwise |
| Query.OptionalInteger | src/data/v2/trades.rs:34-35 | an `Option<usize>` field serialises as `Null` exactly when it is `None`, and as the number it holds otherwise |
| Query.OptionalFeed | src/data/v2/trades.rs:46-47 | an `Option<Feed>` field serialises as `Null` exactly when it is `None`, and as the feed it holds otherwise |
| Query.OptionalText | src/data/v2/quotes.rs:103-105 | an `Option<String>` field without a skip rule serialises as `Null` exactly when it is `None`, and as the text it holds otherwise |
| Query.OptionalInjective | src/data/v2/quotes.rs:96-105 | serialising an optional limit, feed or token loses no information, and `None` becomes `Null` |
| Endpoint.Define | src/endpoint.rs:60-84 | by default an endpoint uses GET, has no query, and has an empty body for every input |
| Endpoint.BuildRequest | src/endpoint.rs:89-107 | keeps the base URL's scheme, host and port; the path is `path(input)` and the query is `query(input)` (`None` clears it); key id and secret go into their headers verbatim; the method is `method()`; a body failure gives `Json` ahead of any builder error; a builder failure gives `Http` |
| Endpoint.Into | src/endpoint.rs:130-136 | unwraps exactly the result that was wrapped |
| Endpoint.IntoWrapped | src/endpoint.rs:130-136 | `ConvertResult(r).into()` is `r` |
| Endpoint.Lookup | src/endpoint.rs:182-186 | the error arms are first-match: the result is the variant of the first arm with the status, and is absent when no arm has it |
| Endpoint.Expand | src/endpoint.rs:141-159 | the generated table is the endpoint's own one with 401 -> AuthenticationFailed and 429 -> RateLimitExceeded in front; those two take precedence, and every other status is looked up as in the endpoint's table |
| Endpoint.FromStatus | src/endpoint.rs:171-188 | a success status returns `parse(body)`, Ok or Err; otherwise the first error arm with the status gives its variant; otherwise `UnexpectedStatus(status)` |
| Endpoint.Classify | src/endpoint.rs:141-188 | the prepended table fed into the classifier: a success status gives `parse(body)`; any other status gives an error naming the variant of an arm for that status (universal or the endpoint's own), or `UnexpectedStatus(status)` when no arm, 401 and 429 included, has it |
| Endpoint.ClassifyUniversal | src/endpoint.rs:150-155 | for every endpoint, 401 is AuthenticationFailed and 429 is RateLimitExceeded unless declared successful, even when the endpoint lists them itself |
| Endpoint.ClassifyCases | src/endpoint.rs:171-188 | classification is total; success arms come before error arms, and statuses outside every table are unexpected |
| Endpoint.ClassifyIgnoresBody | src/endpoint.rs:182-187 | the result for a status that is not a success depends on neither the body nor `parse` |
| Endpoint.StatusOf | src/endpoint.rs:230-234 | the status of the first arm that names the variant |
| Endpoint.IntoCrateError | src/endpoint.rs:226-240 | a table variant becomes `HttpStatus` of its arm's status; `UnexpectedStatus(s)` becomes `HttpStatus(s)`; `Hyper` and `Json` pass through |
| Endpoint.ClassifyThenConvert | src/endpoint.rs:171-240 | for a well-formed table and any status that is not a success, classifying and then converting gives `HttpStatus` of that same status |
| Pagination.Follow | src/data/v2/quotes.rs:251-259 | issues at most `count` requests, the first as given; each next one carries the previous page's `next_page_token` verbatim; it passes on pages in fetch order and stops at the first failure |
| Trades.DefaultInit | src/data/v2/trades.rs:58-70 | a defaulted helper has no limit, feed or page token |
| Trades.Init | src/data/v2/trades.rs:72-89 | symbol, prefix, start and end come from the arguments; limit, feed and page token come from the helper; all are unchanged |
| Trades.InitBijective | src/data/v2/trades.rs:75-89 | every request comes from exactly one helper and argument list |
| Trades.BaseUrl | src/data/v2/trades.rs:142-144 | the base URL is `DATA_BASE_URL` |
| Trades.ListTable | src/data/v2/trades.rs:133-140 | the declared success list is `[200]`; the expanded table is 401 -> AuthenticationFailed, 429 -> RateLimitExceeded, 400 -> InvalidInput; its variants are distinct |
| Trades.Path | src/data/v2/trades.rs:146-148 | the path is the market segment, then the symbol, then `/bars` |
| Trades.PathInjective | src/data/v2/trades.rs:146-148 | equal paths mean equal market and symbol, and conversely |
| Trades.PathIsNotTrades | src/data/v2/trades.rs:130-148 | the path never ends in `/trades`, although the doc comments name that endpoint |
| Trades.QueryFields | src/data/v2/trades.rs:21-55 | the keys are `prefix`, `limit`, `start`, `end`, `feed`, in that order, plus `page_token` when the request has a token |
| Trades.QueryOmits | src/data/v2/trades.rs:24-54 | no `symbol` or `_non_exhaustive` key; `page_token` is present iff the request has a token; no key repeats |
| Trades.QueryValues | src/data/v2/trades.rs:29-50 | each key carries the value of the field it renames |
| Trades.QueryInjective | src/data/v2/trades.rs:21-55 | two requests have the same query fields iff they agree on everything but the symbol |
| Trades.RequestDetermined | src/data/v2/trades.rs:146-152 | the path and the query fields together determine the request |
| Trades.QueryOf | src/data/v2/trades.rs:150-152 | the query is always `Some` when encoding succeeds, and the encoder's error otherwise |
| Trades.ListClassification | src/data/v2/trades.rs:133-140 | under `EndpointDef!`'s reading of the declared table: only 200 runs `parse`; 400 is InvalidInput; 401 and 429 are the universal variants; every other status is unexpected |
| Trades.ListConvert | src/data/v2/trades.rs:137-140 | every status other than 200 reaches the crate error as `HttpStatus` of that status |
| Trades.FollowPagination | src/data/v2/trades.rs:265-277 | the second request is the first one with the first page's `next_page_token` copied in verbatim |
| Quotes.DefaultInit | src/data/v2/quotes.rs:42-54 | a defaulted helper has all optional fields `None` |
| Quotes.Init | src/data/v2/quotes.rs:56-73 | symbol, prefix, start and end come from the arguments; limit, feed and page token come from the helper; all are unchanged |
| Quotes.InitBijective | src/data/v2/quotes.rs:59-73 | every request comes from exactly one helper and argument list |
| Quotes.BaseUrl | src/data/v2/quotes.rs:126-128 | the base URL is `DATA_BASE_URL` |
| Quotes.ListTable | src/data/v2/quotes.rs:117-124 | the declared success list is `[200]`; the expanded table is 401 -> AuthenticationFailed, 429 -> RateLimitExceeded, 400 -> InvalidInput; its variants are distinct |
| Quotes.Path | src/data/v2/quotes.rs:130-133 | the path is the market segment, then the symbol, then `/quotes` |
| Quotes.PathInjective | src/data/v2/quotes.rs:130-133 | equal paths mean equal market and symbol, and conversely |
| Quotes.PathExamples | src/data/v2/quotes.rs:132 | Stocks with SPY gives `/v2/stocks/SPY/quotes`; Crypto with BTCUSD gives `/v1beta3/crypto/us/BTCUSD/quotes` |
| Quotes.QueryFields | src/data/v2/quotes.rs:79-110 | the keys are `prefix`, `start`, `end`, `limit`, `feed`, `page_token`, in that order |
| Quotes.QueryOmits | src/data/v2/quotes.rs:80-110 | no `symbol` or `_non_exhaustive` key; `page_token` is always present; no key repeats |
| Quotes.QueryValues | src/data/v2/quotes.rs:87-105 | each key carries the value of the field it renames, with `page_token` `Null` when there is no token |
| Quotes.QueryInjective | src/data/v2/quotes.rs:79-110 | two requests have the same query fields iff they agree on everything but the symbol |
| Quotes.RequestDetermined | src/data/v2/quotes.rs:130-137 | the path and the query fields together determine the request |
| Quotes.QueryOf | src/data/v2/quotes.rs:135-137 | the query is always `Some` when encoding succeeds, and the encoder's error otherwise |
| Quotes.ListClassification | src/data/v2/quotes.rs:117-124 | under `EndpointDef!`'s reading of the declared table: only 200 runs `parse`; 400 is InvalidInput; 401 and 429 are the universal variants; every other status is unexpected |
| Quotes.ListConvert | src/data/v2/quotes.rs:121-124 | every status other than 200 reaches the crate error as `HttpStatus` of that status |
| Quotes.OnlyTokenChanges | src/data/v2/quotes.rs:253-258 | across a paging run, requests differ from the first one only in the page token |
| Quotes.PageQuotes | src/data/v2/quotes.rs:251-259 | request i + 1 is the first request with page i's `next_page_token` copied in verbatim; pages come back as fetched |

## Left out

- JSON decoding of `Trade`, `Trades`, `Quote` and `Quotes`, and the default `parse` (`from_slice`): `parse` is a function parameter that returns Ok or Err.
- `serde_urlencoded`'s rendering of the field stream, such as percent-encoding, RFC 3339 formatting of timestamps and how it renders `Null`: it is the `Encoder` parameter.
- `url::Url` parsing and `set_path` normalisation: the URL is a record, and the path and query strings are copied as given.
- hyper's `Builder` validation of URIs and header values: it is the `builder` parameter.
- The expansion of the external `Endpoint!` macro, which the trades and quotes endpoints use. It is not part of this model. So are the payload-carrying `InvalidInput(_)` and `NotPermitted(_)` variants the tests mention; the model uses the visible `EndpointDef!` semantics instead.
- Trades.ListClassification: the tests expect a `ListError::NotPermitted(_)` arm (`src/data/v2/trades.rs:303`), which the model lacks; the status that arm would catch is classified as `UnexpectedStatus`. Also, `InvalidInput` carries no body, although the tests match `InvalidInput(Ok(_))` (`src/data/v2/trades.rs:343`). Both come from the external `Endpoint!` macro, whose expansion is not part of this model.
- Quotes.ListClassification: the tests expect a `ListError::NotPermitted(_)` arm (`src/data/v2/quotes.rs:193`), which the model lacks; the status that arm would catch is classified as `UnexpectedStatus`. Also, `InvalidInput` carries no body, although the tests match `InvalidInput(Ok(_))` (`src/data/v2/quotes.rs:210`). Both have the same cause as for trades.
- The asynchronous tests that talk to the live service (`Client::issue`, `ApiInfo`): the server is the `fetch` parameter. What the server does, such as later timestamps or distinct pages, is not modelled. `fetch` is a total function, so the modelled server always answers the same request with the same page or failure. For example, a request re-issued after a `None` token gets the first page again. No contract relies on this.
- `Feed`, `last_quotes::Quote`, `HDR_KEY_ID`, `HDR_SECRET`, `DATA_BASE_URL` and the crate-level `Error` are defined outside the modelled files. They are opaque types or tags; only the three `Error` variants that the conversion reaches are modelled.
- `src/data/v2/mod.rs`, which only declares modules, and the streaming module.
- The `From<hyper::Error>` and `From<serde_json::Error>` conversions into the generated enum, each of which only wraps its argument: they are the `Hyper` and `Json` constructors of `Endpoint.DefError`.
