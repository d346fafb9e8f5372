/** src/data/v2/quotes.rs: the request for historic quotes of one symbol,
    its path and query, the page it returns, and its status table. */
module Quotes {
  import opened Wrappers
  import opened Data
  import opened Query
  import Prefix
  import Endpoint
  import Pagination

  /** A quote (`last_quotes::Quote`, defined outside the model), with the
      fields the tests read. */
  datatype Quote = Quote(time: Timestamp, askPrice: Num, askSize: Usize, bidPrice: Num, bidSize: Usize)

  /** `Quotes`: one page of quotes and the token of the next page, if any. */
  datatype Quotes = Quotes(quotes: seq<Quote>, symbol: string, nextPageToken: Option<string>)

  /** `ListReqInit`: the optional fields of a request. */
  datatype ListReqInit = ListReqInit(limit: Option<Usize>, feed: Option<Feed>, pageToken: Option<string>)

  /** `ListReqInit::default()`: every optional field is `None`. */
  function DefaultInit(): (init: ListReqInit)
    ensures init.limit.None? && init.feed.None? && init.pageToken.None?
  {
    ListReqInit(None, None, None)
  }

  /** `ListReq`, fields in declaration order. */
  datatype ListReq = ListReq(
    symbol: string,
    prefix: Prefix.MarketPrefix,
    start: Timestamp,
    end: Timestamp,
    limit: Option<Usize>,
    feed: Option<Feed>,
    pageToken: Option<string>)

  /** `ListReqInit::init`: the symbol, market and time range come from the
      arguments, the optional fields from the helper, all unchanged. */
  function Init(init: ListReqInit, symbol: string, prefix: Prefix.MarketPrefix, start: Timestamp, end: Timestamp): (r: ListReq)
    ensures r.symbol == symbol && r.prefix == prefix && r.start == start && r.end == end
    ensures r.limit == init.limit && r.feed == init.feed && r.pageToken == init.pageToken
  {
    ListReq(symbol, prefix, start, end, init.limit, init.feed, init.pageToken)
  }

  /** Every request is built by `init` from exactly one helper and argument list. */
  lemma InitBijective(r: ListReq, init: ListReqInit, symbol: string, prefix: Prefix.MarketPrefix, start: Timestamp, end: Timestamp)
    ensures Init(ListReqInit(r.limit, r.feed, r.pageToken), r.symbol, r.prefix, r.start, r.end) == r
    ensures Init(init, symbol, prefix, start, end) == r <==>
      init == ListReqInit(r.limit, r.feed, r.pageToken) && symbol == r.symbol && prefix == r.prefix && start == r.start && end == r.end
  {
  }

  /** The `List` endpoint's tables: 200 is the only success, 400 is `InvalidInput`. */
  const List: Endpoint.EndpointDef := Endpoint.EndpointDef([200], [Endpoint.Entry(400, "InvalidInput")])

  /** `List::base_url`. */
  function BaseUrl(): (u: Option<BaseUrl>)
    ensures u.Some? && u.value == DataBaseUrl
  {
    Some(DataBaseUrl)
  }

  /** `List::path`: the market's segment, the symbol, and `/quotes`. */
  function Path(r: ListReq): (p: string)
    ensures |p| == |Prefix.Display(r.prefix)| + |r.symbol| + 7
    ensures p[..|Prefix.Display(r.prefix)|] == Prefix.Display(r.prefix)
    ensures p[|Prefix.Display(r.prefix)|..|p| - 7] == r.symbol
    ensures p[|p| - 7..] == "/quotes"
  {
    Prefix.Display(r.prefix) + r.symbol + "/quotes"
  }

  /** The path determines the market and the symbol, and conversely. */
  lemma PathInjective(a: ListReq, b: ListReq)
    ensures Path(a) == Path(b) <==> a.prefix == b.prefix && a.symbol == b.symbol
  {
    if Path(a) == Path(b) {
      assert Path(a) == Prefix.Display(a.prefix) + (a.symbol + "/quotes");
      assert Path(b) == Prefix.Display(b.prefix) + (b.symbol + "/quotes");
      Prefix.DisplayUnambiguous(a.prefix, b.prefix, a.symbol + "/quotes", b.symbol + "/quotes");
      assert a.symbol == (a.symbol + "/quotes")[..|a.symbol|];
      assert b.symbol == (b.symbol + "/quotes")[..|b.symbol|];
    }
  }

  /** The paths of the two markets for the same symbol. */
  lemma PathExamples(r: ListReq)
    ensures r.prefix == Prefix.Stocks && r.symbol == "SPY" ==> Path(r) == "/v2/stocks/SPY/quotes"
    ensures r.prefix == Prefix.Crypto && r.symbol == "BTCUSD" ==> Path(r) == "/v1beta3/crypto/us/BTCUSD/quotes"
  {
  }

  /** The fields `to_query` receives: `symbol` and `_non_exhaustive` are
      skipped; `page_token` has no skip rule and is always present. */
  function QueryFields(r: ListReq): (fs: seq<Field>)
    ensures Keys(fs) == ["prefix", "start", "end", "limit", "feed", "page_token"]
  {
    [ Field("prefix", Variant(Prefix.SerdeName(r.prefix))),
      Field("start", Time(r.start)),
      Field("end", Time(r.end)),
      Field("limit", OptionalInteger(r.limit)),
      Field("feed", OptionalFeed(r.feed)),
      Field("page_token", OptionalText(r.pageToken)) ]
  }

  /** The query never carries the symbol or the placeholder field; unlike
      the trades query it carries `page_token` whether or not there is one. */
  lemma QueryOmits(r: ListReq)
    ensures "symbol" !in Keys(QueryFields(r))
    ensures "_non_exhaustive" !in Keys(QueryFields(r))
    ensures "page_token" in Keys(QueryFields(r))
    ensures DistinctKeys(QueryFields(r))
  {
    var ks := Keys(QueryFields(r));
    assert forall i :: 0 <= i < |ks| ==> ks[i] != "symbol" && ks[i] != "_non_exhaustive";
    assert ks[5] == "page_token";
  }

  /** Each field carries the request's value under its serde name. */
  lemma QueryValues(r: ListReq)
    ensures var fs := QueryFields(r);
      && Get(fs, "prefix") == Some(Variant(Prefix.SerdeName(r.prefix)))
      && Get(fs, "start") == Some(Time(r.start))
      && Get(fs, "end") == Some(Time(r.end))
      && Get(fs, "limit") == Some(OptionalInteger(r.limit))
      && Get(fs, "feed") == Some(OptionalFeed(r.feed))
      && Get(fs, "page_token") == Some(OptionalText(r.pageToken))
  {
    var fs := QueryFields(r);
    QueryOmits(r);
    assert Keys(fs)[0] == "prefix" && Keys(fs)[1] == "start" && Keys(fs)[2] == "end";
    assert Keys(fs)[3] == "limit" && Keys(fs)[4] == "feed" && Keys(fs)[5] == "page_token";
    GetAt(fs, 0); GetAt(fs, 1); GetAt(fs, 2); GetAt(fs, 3); GetAt(fs, 4); GetAt(fs, 5);
  }

  /** The query loses nothing but the symbol. */
  lemma QueryInjective(a: ListReq, b: ListReq)
    ensures QueryFields(a) == QueryFields(b) <==> a.(symbol := b.symbol) == b
  {
    if QueryFields(a) == QueryFields(b) {
      var fa, fb := QueryFields(a), QueryFields(b);
      assert fa[0] == fb[0] && fa[1] == fb[1] && fa[2] == fb[2] && fa[3] == fb[3] && fa[4] == fb[4] && fa[5] == fb[5];
      Prefix.SerdeNameInjective(a.prefix, b.prefix);
      OptionalInjective(a.limit, b.limit, a.feed, b.feed, a.pageToken, b.pageToken);
    }
  }

  /** Path and query fields together determine the whole request. */
  lemma RequestDetermined(a: ListReq, b: ListReq)
    requires Path(a) == Path(b) && QueryFields(a) == QueryFields(b)
    ensures a == b
  {
    PathInjective(a, b);
    QueryInjective(a, b);
  }

  /** `List::query`: always a query, or the encoder's error. */
  function QueryOf(r: ListReq, encode: Encoder): (q: Result<Option<string>, ConversionError>)
    ensures q != Ok(None)
    ensures q.Ok? <==> encode(QueryFields(r)).Ok?
    ensures q.Ok? ==> q.value == Some(encode(QueryFields(r)).value)
    ensures q.Err? ==> q.error == encode(QueryFields(r)).error
  {
    AsQuery(encode, QueryFields(r))
  }

  /** The table `EndpointDef!` makes of `List`'s declaration: the two
      universal arms, then `400 => InvalidInput`; its enum is well formed. */
  lemma ListTable()
    ensures List.okStatuses == [200]
    ensures Endpoint.Expand(List).errTable ==
      [Endpoint.Entry(401, "AuthenticationFailed"), Endpoint.Entry(429, "RateLimitExceeded"), Endpoint.Entry(400, "InvalidInput")]
    ensures Endpoint.WellFormed(List)
  {
    assert Endpoint.Expand(List).errTable == Endpoint.Universal + List.errTable;
  }

  /** How `List` classifies responses: only 200 runs `parse`; 400 is
      `InvalidInput`, 401 and 429 the universal variants, anything else
      unexpected, none of them looking at the body. */
  lemma ListClassification<O>(parse: Endpoint.Bytes -> Result<O, Endpoint.DefError>, status: Endpoint.StatusCode, body: Endpoint.Bytes)
    ensures status == 200 ==> Endpoint.Classify(List, parse, status, body).result == parse(body)
    ensures status == 400 ==> Endpoint.Classify(List, parse, status, body).result == Err(Endpoint.Variant("InvalidInput"))
    ensures status == 401 ==> Endpoint.Classify(List, parse, status, body).result == Err(Endpoint.Variant("AuthenticationFailed"))
    ensures status == 429 ==> Endpoint.Classify(List, parse, status, body).result == Err(Endpoint.Variant("RateLimitExceeded"))
    ensures status !in {200, 400, 401, 429} ==> Endpoint.Classify(List, parse, status, body).result == Err(Endpoint.UnexpectedStatus(status))
  {
    Endpoint.ClassifyCases(List, parse, status, body);
    assert Endpoint.Expand(List).errTable == Endpoint.Universal + List.errTable;
  }

  /** `List`'s error enum is well formed, so every failed status reaches
      the caller as `HttpStatus` of that status. */
  lemma ListConvert<O>(parse: Endpoint.Bytes -> Result<O, Endpoint.DefError>, status: Endpoint.StatusCode, body: Endpoint.Bytes)
    requires status != 200
    ensures var r := Endpoint.Classify(List, parse, status, body).result;
      && r.Err?
      && (r.error.Variant? ==> r.error.name in Endpoint.Variants(Endpoint.Expand(List).errTable))
      && Endpoint.IntoCrateError(Endpoint.Expand(List).errTable, r.error) == Endpoint.HttpStatus(status)
  {
    var t := Endpoint.Expand(List).errTable;
    assert t == Endpoint.Universal + List.errTable;
    assert Endpoint.WellFormed(List);
    Endpoint.ClassifyThenConvert(List, parse, status, body);
  }

  /** Requests of a paging run differ from the first one in the page token alone. */
  lemma {:induction false} OnlyTokenChanges(first: ListReq, requests: seq<ListReq>, pages: seq<Quotes>)
    requires 0 < |requests| <= |pages| + 1 && requests[0] == first
    requires forall i :: 0 < i < |requests| ==> requests[i] == requests[i - 1].(pageToken := pages[i - 1].nextPageToken)
    ensures forall i :: 0 <= i < |requests| ==> requests[i] == first.(pageToken := requests[i].pageToken)
  {
    if |requests| > 1 {
      var n := |requests| - 1;
      OnlyTokenChanges(first, requests[..n], pages);
      assert requests[n - 1] == requests[..n][n - 1];
    }
  }

  /** The `page_quotes` loop: `count` requests in turn, each carrying the
      token of the page before verbatim and nothing else changed. */
  method PageQuotes<E>(first: ListReq, count: nat, fetch: ListReq -> Result<Quotes, E>)
    returns (requests: seq<ListReq>, pages: seq<Quotes>, failure: Option<E>)
    ensures |requests| <= count && (count > 0 ==> 0 < |requests| && requests[0] == first)
    ensures |requests| == |pages| + (if failure.Some? then 1 else 0)
    ensures failure.None? ==> |pages| == count
    ensures forall i :: 0 <= i < |pages| ==> fetch(requests[i]) == Ok(pages[i])
    ensures failure.Some? ==> fetch(requests[|pages|]) == Err(failure.value)
    ensures forall i :: 0 < i < |requests| ==> requests[i] == first.(pageToken := pages[i - 1].nextPageToken)
  {
    requests, pages, failure := Pagination.Follow(first, count, fetch,
      (page: Quotes) => page.nextPageToken,
      (r: ListReq, token: Option<string>) => r.(pageToken := token));
    if |requests| > 0 {
      OnlyTokenChanges(first, requests, pages);
    }
  }
}
