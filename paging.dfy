/**
 * `call_waldur_apis`: the page loop behind `get_from_waldur`. Pages 1, 2, …
 * of `<base><endpoint>/` are requested one after another until a page comes
 * back empty, a 404 arrives or the page cap is passed; a body that is not a
 * list or an error status ends the walk with that error.
 */
module Paging {
  import opened Wrappers
  import opened Strings
  import opened Json
  import opened Http
  import opened Utils

  /** The page cap that keeps a misbehaving server from looping the tool forever. */
  const MaxPages := 10000

  /**
   * The request for one page. Whether or not `arguments` is empty, the
   * query is the arguments with "page" set to the loop counter.
   */
  function PageRequest(url: string, authorization: string, args: map<string, Json>, page: nat): Request {
    Request(GET, url, authorization, args["page" := JInt(page)], map[])
  }

  /** The loop counter overrides any "page" the caller gave; every other argument is sent unchanged. */
  lemma PageRequestQuery(url: string, authorization: string, args: map<string, Json>, page: nat)
    ensures var req := PageRequest(url, authorization, args, page);
      "page" in req.params && req.params["page"] == JInt(page)
      && req.params.Keys == args.Keys + {"page"}
      && (forall k :: k in args && k != "page" ==> req.params[k] == args[k])
  {
  }

  /** The server's answer to the request for each page number. */
  function PageFetcher(url: string, authorization: string, args: map<string, Json>,
                       server: Request -> Response): nat -> Response
  {
    (page: nat) => server(PageRequest(url, authorization, args, page))
  }

  /** The requests for pages 1 to `n`, in the order they are sent. */
  function PageRequests(url: string, authorization: string, args: map<string, Json>, n: nat): seq<Request> {
    seq(n, i requires 0 <= i < n => PageRequest(url, authorization, args, i + 1))
  }

  /** The `i`-th request asks for page `i + 1`. */
  lemma PageRequestsNumbered(url: string, authorization: string, args: map<string, Json>, n: nat)
    ensures var sent := PageRequests(url, authorization, args, n);
      |sent| == n && forall i :: 0 <= i < n ==> "page" in sent[i].params && sent[i].params["page"] == JInt(i + 1)
  {
  }

  /** Why a listing failed. */
  datatype FetchError = UnexpectedFormat(body: Json) | AuthFailed | AccessDenied | ApiError(status: int)

  /** The error string the tool returns, where it is not a repr of the body. */
  function FetchErrorText(e: FetchError): string
    requires !e.UnexpectedFormat?
  {
    match e
    case AuthFailed => AuthenticationFailed
    case AccessDenied => PermissionDenied
    case ApiError(status) => "API error: " + IntToString(status) + "."
  }

  /** The `{"total_count", "method", "data"}` object the tool serialises. */
  datatype Listing = Listing(totalCount: nat, endpoint: string, data: seq<Json>)

  /** How a walk from some page on ended: the items collected or the error, and how many pages it requested. */
  datatype Crawl = Crawl(outcome: Result<seq<Json>, FetchError>, pages: nat)

  function Prefixed(items: seq<Json>, o: Result<seq<Json>, FetchError>): Result<seq<Json>, FetchError> {
    match o
    case Success(d) => Success(items + d)
    case Failure(e) => Failure(e)
  }

  /** A response after which the loop asks for the next page: a successful, non-empty list. */
  predicate Continues(resp: Response) {
    (resp.status == 200 || resp.status == 201) && resp.json.JList? && resp.json.items != []
  }

  /** The error a page response ends the walk with, if any. */
  function PageFailure(resp: Response): (e: Option<FetchError>)
    ensures e.None? <==> ((resp.status == 200 || resp.status == 201) && resp.json.JList?) || resp.status == 404
    ensures (resp.status == 200 || resp.status == 201) && !resp.json.JList? ==> e == Some(UnexpectedFormat(resp.json))
    ensures resp.status == 401 ==> e == Some(AuthFailed)
    ensures resp.status == 403 ==> e == Some(AccessDenied)
    ensures resp.status !in {200, 201, 401, 403, 404} ==> e == Some(ApiError(resp.status))
  {
    if resp.status == 200 || resp.status == 201 then
      if resp.json.JList? then None else Some(UnexpectedFormat(resp.json))
    else if resp.status == 401 then Some(AuthFailed)
    else if resp.status == 403 then Some(AccessDenied)
    else if resp.status == 404 then None
    else Some(ApiError(resp.status))
  }

  /** The text the tool returns for a page that fails with a status other than 200/201/404. */
  lemma PageErrorTexts(resp: Response)
    requires resp.status !in {200, 201, 404}
    ensures PageFailure(resp).Some? && !PageFailure(resp).value.UnexpectedFormat?
    ensures resp.status == 401 ==> FetchErrorText(PageFailure(resp).value) == AuthenticationFailed
    ensures resp.status == 403 ==> FetchErrorText(PageFailure(resp).value) == PermissionDenied
    ensures resp.status != 401 && resp.status != 403 ==>
      FetchErrorText(PageFailure(resp).value) == "API error: " + IntToString(resp.status) + "."
  {
  }

  /**
   * What one page does to the walk: a non-empty list is collected and the
   * walk goes on as `next`; an empty list or a 404 ends it; anything else
   * is an error.
   */
  function AfterPage(resp: Response, next: Crawl): Crawl {
    if Continues(resp) then Crawl(Prefixed(resp.json.items, next.outcome), next.pages + 1)
    else match PageFailure(resp)
      case Some(e) => Crawl(Failure(e), 1)
      case None => Crawl(Success([]), 1)
  }

  /** Reference definition of the pagination, one page per step, from `page` to the cap. */
  function CrawlFrom(fetch: nat -> Response, page: nat): Crawl
    decreases MaxPages + 1 - page
  {
    if page > MaxPages then Crawl(Success([]), 0)
    else AfterPage(fetch(page), CrawlFrom(fetch, page + 1))
  }

  /** The items a page contributes: those of a successful list response, none otherwise. */
  function PageItems(resp: Response): seq<Json> {
    if (resp.status == 200 || resp.status == 201) && resp.json.JList? then resp.json.items else []
  }

  /** Everything pages `from` to `from + n - 1` contributed, in page order. */
  function Gathered(fetch: nat -> Response, from: nat, n: nat): seq<Json>
    decreases n
  {
    if n == 0 then [] else PageItems(fetch(from)) + Gathered(fetch, from + 1, n - 1)
  }

  /** The walk requests at least one page and never goes past the cap. */
  lemma {:induction false} CrawlPageCount(fetch: nat -> Response, page: nat)
    requires 1 <= page <= MaxPages + 1
    ensures var c := CrawlFrom(fetch, page);
      page + c.pages <= MaxPages + 1 && (page <= MaxPages ==> c.pages >= 1)
    decreases MaxPages + 1 - page
  {
    if page <= MaxPages && Continues(fetch(page)) {
      CrawlPageCount(fetch, page + 1);
    }
  }

  /** A successful walk returns exactly the items of the pages it requested, in order. */
  lemma {:induction false} CrawlGathersPages(fetch: nat -> Response, page: nat)
    ensures var c := CrawlFrom(fetch, page);
      c.outcome.Success? ==> c.outcome.value == Gathered(fetch, page, c.pages)
    decreases MaxPages + 1 - page
  {
    if page <= MaxPages && Continues(fetch(page)) {
      CrawlGathersPages(fetch, page + 1);
    }
  }

  /**
   * The walk only moves on from a page that was a non-empty list, and it
   * stops either at the cap or because its last page was not one.
   */
  lemma {:induction false} CrawlStopsOnlyAtLastPage(fetch: nat -> Response, page: nat)
    requires 1 <= page <= MaxPages + 1
    ensures var c := CrawlFrom(fetch, page);
      (forall p :: page <= p < page + c.pages - 1 ==> Continues(fetch(p)))
      && (page + c.pages == MaxPages + 1 || (c.pages >= 1 && !Continues(fetch(page + c.pages - 1))))
    decreases MaxPages + 1 - page
  {
    if page <= MaxPages && Continues(fetch(page)) {
      CrawlStopsOnlyAtLastPage(fetch, page + 1);
    }
  }

  /** A failed walk failed on the last page it requested, with that page's error. */
  lemma {:induction false} CrawlFailsOnLastPage(fetch: nat -> Response, page: nat)
    ensures var c := CrawlFrom(fetch, page);
      c.outcome.Failure? ==> c.pages >= 1 && PageFailure(fetch(page + c.pages - 1)) == Some(c.outcome.error)
    decreases MaxPages + 1 - page
  {
    if page <= MaxPages && Continues(fetch(page)) {
      CrawlFailsOnLastPage(fetch, page + 1);
    }
  }

  /** Against a server that never runs out of items the walk requests every page up to the cap. */
  lemma {:induction false} EndlessServerHitsCap(fetch: nat -> Response, page: nat)
    requires 1 <= page <= MaxPages + 1
    requires forall p :: Continues(fetch(p))
    ensures var c := CrawlFrom(fetch, page);
      c.outcome.Success? && c.pages == MaxPages + 1 - page
    decreases MaxPages + 1 - page
  {
    if page <= MaxPages {
      assert Continues(fetch(page));
      EndlessServerHitsCap(fetch, page + 1);
    }
  }

  /** A walk that first collected `data` over `pages` pages, then went on as `rest`. */
  function Joined(data: seq<Json>, pages: nat, rest: Crawl): Crawl {
    Crawl(Prefixed(data, rest.outcome), pages + rest.pages)
  }

  lemma JoinedNil(c: Crawl)
    ensures Joined([], 0, c) == c
  {
    match c.outcome
    case Success(d) => assert [] + d == d;
    case Failure(_) =>
  }

  /** Collecting a page moves its items from the walk still to come to the part already done. */
  lemma JoinedStep(data: seq<Json>, pages: nat, items: seq<Json>, rest: Crawl)
    ensures Joined(data, pages, Crawl(Prefixed(items, rest.outcome), rest.pages + 1))
         == Joined(data + items, pages + 1, rest)
  {
    match rest.outcome
    case Success(d) => assert data + (items + d) == (data + items) + d;
    case Failure(_) =>
  }

  /** A walk whose remaining part is one final page. */
  lemma JoinedEnd(data: seq<Json>, pages: nat, o: Result<seq<Json>, FetchError>)
    ensures Joined(data, pages, Crawl(o, 1)).pages == pages + 1
    ensures o == Success([]) ==> Joined(data, pages, Crawl(o, 1)).outcome == Success(data)
    ensures o.Failure? ==> Joined(data, pages, Crawl(o, 1)).outcome == o
  {
    assert data + [] == data;
  }

  /** A page that continues the walk moves its items into the part already collected. */
  lemma CrawlContinues(fetch: nat -> Response, page: nat, data: seq<Json>, here: Crawl)
    requires 1 <= page <= MaxPages && Continues(fetch(page))
    requires here == Joined(data, page - 1, CrawlFrom(fetch, page))
    ensures here == Joined(data + fetch(page).json.items, page, CrawlFrom(fetch, page + 1))
  {
    var rest := CrawlFrom(fetch, page + 1);
    assert CrawlFrom(fetch, page) == AfterPage(fetch(page), rest);
    JoinedStep(data, page - 1, fetch(page).json.items, rest);
  }

  /** A page that does not continue the walk ends it, with its error or with what was collected. */
  lemma CrawlStops(fetch: nat -> Response, page: nat, data: seq<Json>, here: Crawl)
    requires 1 <= page <= MaxPages && !Continues(fetch(page))
    requires here == Joined(data, page - 1, CrawlFrom(fetch, page))
    ensures here == Crawl(if PageFailure(fetch(page)).Some? then Failure(PageFailure(fetch(page)).value) else Success(data), page)
  {
    var rest := CrawlFrom(fetch, page + 1);
    assert CrawlFrom(fetch, page) == AfterPage(fetch(page), rest);
    if PageFailure(fetch(page)).Some? {
      JoinedEnd(data, page - 1, Failure(PageFailure(fetch(page)).value));
    } else {
      JoinedEnd(data, page - 1, Success([]));
    }
  }

  /** Once every page up to the cap has been collected, the walk is over. */
  lemma CrawlAtCap(fetch: nat -> Response, data: seq<Json>, here: Crawl)
    requires here == Joined(data, MaxPages, CrawlFrom(fetch, MaxPages + 1))
    ensures here == Crawl(Success(data), MaxPages)
  {
    assert data + [] == data;
  }

  /** The paging loop: fetch pages 1, 2, … until the walk stops. */
  method FetchAllPages(fetch: nat -> Response) returns (outcome: Result<seq<Json>, FetchError>, pages: nat)
    ensures Crawl(outcome, pages) == CrawlFrom(fetch, 1)
  {
    var allData: seq<Json> := [];
    var page := 1;
    ghost var whole := CrawlFrom(fetch, 1);
    JoinedNil(whole);
    while page <= MaxPages
      invariant 1 <= page <= MaxPages + 1
      invariant whole == Joined(allData, page - 1, CrawlFrom(fetch, page))
      decreases MaxPages + 1 - page
    {
      var resp := fetch(page);
      if Continues(resp) {
        CrawlContinues(fetch, page, allData, whole);
        allData := allData + resp.json.items;
        page := page + 1;
      } else {
        CrawlStops(fetch, page, allData, whole);
        var failure := PageFailure(resp);
        outcome := if failure.Some? then Failure(failure.value) else Success(allData);
        pages := page;
        return;
      }
    }
    CrawlAtCap(fetch, allData, whole);
    outcome, pages := Success(allData), MaxPages;
  }

  /** `call_waldur_apis`: the listing, or the first error, as the tool reports it. */
  function Summarise(o: Result<seq<Json>, FetchError>, endpoint: string): Result<Listing, FetchError> {
    match o
    case Success(d) => Success(Listing(|d|, endpoint, d))
    case Failure(e) => Failure(e)
  }

  /** `call_waldur_apis`: the listing of `<base><endpoint>/`, or the first error, with the requests sent. */
  method CallWaldurApis(token: string, endpoint: string, args: map<string, Json>, baseUrl: string,
                        server: Request -> Response)
    returns (r: Result<Listing, FetchError>, sent: seq<Request>)
    ensures var url, authorization := baseUrl + endpoint + "/", NormaliseToken(token);
      var c := CrawlFrom(PageFetcher(url, authorization, args, server), 1);
      sent == PageRequests(url, authorization, args, c.pages) && r == Summarise(c.outcome, endpoint)
    ensures 1 <= |sent| <= MaxPages
    ensures r.Success? ==> r.value.totalCount == |r.value.data| && r.value.endpoint == endpoint
    ensures r.Success? ==>
      r.value.data == Gathered(PageFetcher(baseUrl + endpoint + "/", NormaliseToken(token), args, server), 1, |sent|)
  {
    var url, authorization := baseUrl + endpoint + "/", NormaliseToken(token);
    var fetch := PageFetcher(url, authorization, args, server);
    CrawlPageCount(fetch, 1);
    CrawlGathersPages(fetch, 1);
    var outcome, pages := FetchAllPages(fetch);
    sent := PageRequests(url, authorization, args, pages);
    match outcome
    case Success(data) => r := Success(Listing(|data|, endpoint, data));
    case Failure(e) => r := Failure(e);
  }
}
