/** The cursor protocol of the list endpoints, as their paging tests drive
    it: issue a request, copy the page's `next_page_token` verbatim into the
    request's `page_token`, and issue the next one. A failed fetch ends the
    run (the tests unwrap every response). */
module Pagination {
  import opened Wrappers

  /** Issues up to `count` requests, starting from `first`; `fetch` stands
      for the client and the server. Each request after the first is the one
      before it carrying the previous page's token; every page is passed on
      as it was fetched and in the order fetched. */
  method Follow<R, P, E>(first: R, count: nat, fetch: R -> Result<P, E>,
                         nextToken: P -> Option<string>, withToken: (R, Option<string>) -> R)
    returns (requests: seq<R>, pages: seq<P>, failure: Option<E>)
    ensures |requests| == |pages| + (if failure.Some? then 1 else 0)
    ensures |requests| <= count
    ensures failure.None? ==> |pages| == count
    ensures count > 0 ==> 0 < |requests| && requests[0] == first
    ensures forall i :: 0 <= i < |pages| ==> fetch(requests[i]) == Ok(pages[i])
    ensures failure.Some? ==> fetch(requests[|pages|]) == Err(failure.value)
    ensures forall i :: 0 < i < |requests| ==> requests[i] == withToken(requests[i - 1], nextToken(pages[i - 1]))
  {
    requests, pages, failure := [], [], None;
    var request := first;
    while |pages| < count
      invariant |requests| == |pages| <= count
      invariant |pages| == 0 ==> request == first
      invariant |pages| > 0 ==> request == withToken(requests[|pages| - 1], nextToken(pages[|pages| - 1]))
      invariant count > 0 && |pages| > 0 ==> requests[0] == first
      invariant forall i :: 0 <= i < |pages| ==> fetch(requests[i]) == Ok(pages[i])
      invariant forall i :: 0 < i < |requests| ==> requests[i] == withToken(requests[i - 1], nextToken(pages[i - 1]))
      decreases count - |pages|
    {
      var response := fetch(request);
      requests := requests + [request];
      if response.Err? {
        failure := Some(response.error);
        return;
      }
      pages := pages + [response.value];
      request := withToken(request, nextToken(response.value));
    }
  }
}
