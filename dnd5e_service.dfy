/** The gRPC handlers of the back end (back-end/src/dnd5e_service.cpp):
    endpoint validation, list pagination, item field copying, search
    validation and the health status. The transport is not modelled: each
    handler takes its request as a value and gives back the status and the
    response message it fills. */
module Dnd5eService {
  import opened Wrappers
  import opened Json
  import ApiClient
  import SearchEngine

  /** The gRPC status a handler returns. */
  datatype Status = Success | Failure(code: ErrorCode, message: string)

  datatype ErrorCode = InvalidArgument | Internal

  /** The protobuf `ApiItem` message: the client's item plus its endpoint. */
  datatype ProtoItem = ProtoItem(index: string, name: string, url: string, endpoint: string)

  datatype EndpointsResponse = EndpointsResponse(endpoints: seq<string>, totalCount: int)

  datatype ListRequest = ListRequest(endpoint: string, page: Int32, pageSize: Int32)

  datatype ListResponse = ListResponse(
    endpoint: string, totalCount: int, page: int, pageSize: int, hasMore: bool, items: seq<ProtoItem>)

  datatype ItemResponse = ItemResponse(item: ProtoItem, rawData: Option<Json>)

  datatype SearchRequest = SearchRequest(query: string, endpoints: seq<string>, maxResults: Int32)

  /** One protobuf `SearchResult`; the score is in tenths. */
  datatype ResultMessage = ResultMessage(item: ProtoItem, matchedField: string, relevanceScore: int)

  datatype SearchResponse = SearchResponse(query: string, totalFound: int, results: seq<ResultMessage>)

  datatype ServingStatus = Unknown | Serving | NotServing

  datatype HealthResponse = HealthResponse(status: ServingStatus, message: string)

  /** A protobuf `int32` and C++ `int`. */
  type Int32 = x: int | -0x8000_0000 <= x < 0x8000_0000

  const EmptyItem: ProtoItem := ProtoItem("", "", "", "")
  const EmptyList: ListResponse := ListResponse("", 0, 0, 0, false, [])
  const EmptySearch: SearchResponse := SearchResponse("", 0, [])
  const EmptyQueryMessage: string := "Search query cannot be empty"

  /** `ConvertToProtoItem`. */
  function ConvertToProtoItem(item: ApiClient.ApiItem, endpoint: string): (p: ProtoItem)
    ensures p.endpoint == endpoint
  {
    ProtoItem(item.index, item.name, item.url, endpoint)
  }

  /** The client's item a message carries, without its endpoint. */
  function ClientItem(p: ProtoItem): ApiClient.ApiItem
  {
    ApiClient.ApiItem(p.index, p.name, p.url)
  }

  /** Conversion keeps index, name and url: dropping the endpoint again gives
      back the item, and two items convert alike only when they are equal. */
  lemma ConvertKeepsFields(item: ApiClient.ApiItem, other: ApiClient.ApiItem, endpoint: string)
    ensures ClientItem(ConvertToProtoItem(item, endpoint)) == item
    ensures ConvertToProtoItem(item, endpoint) == ConvertToProtoItem(other, endpoint) ==> item == other
  {
  }

  function ConvertAll(items: seq<ApiClient.ApiItem>, endpoint: string): (r: seq<ProtoItem>)
    ensures |r| == |items|
    ensures forall k :: 0 <= k < |items| ==> r[k] == ConvertToProtoItem(items[k], endpoint)
  {
    seq(|items|, k requires 0 <= k < |items| => ConvertToProtoItem(items[k], endpoint))
  }

  function Min(a: int, b: int): int
  {
    if a <= b then a else b
  }

  function Max(a: int, b: int): int
  {
    if a >= b then a else b
  }

  /** Two's-complement wrap-around of a 32-bit signed result. */
  function Wrap32(x: int): Int32
  {
    ((x + 0x8000_0000) % 0x1_0000_0000) - 0x8000_0000
  }

  /** The page window exactly as `GetList` computes it in `int` arithmetic:
      the loop reads `results[i]` for every `start <= i < end`. */
  function WindowAsWritten(page: Int32, pageSize: Int32, n: Int32): (w: (int, int))
  {
    var start := Wrap32(page * pageSize);
    (start, Min(Wrap32(start + pageSize), n))
  }

  /** A negative page with a positive size makes the loop read before the
      first result: page -1 of size 10 over 5 results reads indices -10 to -1. */
  lemma NegativePageReadsBeforeResults()
    ensures var w := WindowAsWritten(-1, 10, 5);
            w.0 < w.1 && w.0 < 0
  {
  }

  /** The 32-bit product wraps: page 65536 of size 65536 starts at 0, so a page
      far past the end serves the first results. */
  lemma WrappedProductServesFirstPage()
    ensures WindowAsWritten(65536, 65536, 5) == (0, 5)
  {
  }

  /** The page of `results` that the handler is meant to serve: the results
      from `page * pageSize` up to `min(page * pageSize + pageSize, n)`,
      computed without wrap-around, and none before the first result. */
  function PageItems(results: seq<ApiClient.ApiItem>, page: int, pageSize: int): (r: seq<ApiClient.ApiItem>)
    ensures |r| <= |results|
    ensures var start := page * pageSize;
            0 <= start && 0 <= pageSize && start + pageSize <= |results| ==> r == results[start..start + pageSize]
    ensures page * pageSize >= |results| ==> r == []
  {
    var lo := Max(page * pageSize, 0);
    var hi := Min(page * pageSize + pageSize, |results|);
    if lo < hi then results[lo..hi] else []
  }

  /** `has_more`: the window ends before the last result. */
  function HasMore(n: int, page: int, pageSize: int): bool
  {
    Min(page * pageSize + pageSize, n) < n
  }

  /** For a positive page size and a page from 0 on, `has_more` says exactly
      that some result lies beyond this page. */
  lemma HasMoreIffResultsBeyond(n: nat, page: nat, pageSize: nat)
    requires pageSize > 0
    ensures HasMore(n, page, pageSize) <==> (page + 1) * pageSize < n
  {
    assert (page + 1) * pageSize == page * pageSize + pageSize;
  }

  /** A page from 0 on, of a size from 0 on, is the stretch of results it
      covers, cut at the end of the results. */
  lemma PageItemsClamped(results: seq<ApiClient.ApiItem>, page: nat, pageSize: nat)
    ensures var n := |results|;
            PageItems(results, page, pageSize) == results[Min(page * pageSize, n)..Min(page * pageSize + pageSize, n)]
  {
  }

  lemma MulSucc(k: nat, size: nat)
    ensures (k + 1) * size == k * size + size
  {
  }

  /** Pages 0 to k-1, read one after another, give the
      results from the start up to k pages' worth, in order. */
  lemma {:induction false} PagesTile(results: seq<ApiClient.ApiItem>, pageSize: nat, k: nat)
    ensures Pages(results, pageSize, k) == results[..Min(k * pageSize, |results|)]
  {
    if k > 0 {
      var n := |results|;
      var start := (k - 1) * pageSize;
      var end := k * pageSize;
      MulSucc(k - 1, pageSize);
      PagesTile(results, pageSize, k - 1);
      PageItemsClamped(results, k - 1, pageSize);
      SliceJoin(results, Min(start, n), Min(end, n));
    }
  }

  lemma SliceJoin(s: seq<ApiClient.ApiItem>, a: nat, b: nat)
    requires a <= b <= |s|
    ensures s[..a] + s[a..b] == s[..b]
  {
  }

  /** Pages 0 to k-1, concatenated. */
  function Pages(results: seq<ApiClient.ApiItem>, pageSize: int, k: nat): seq<ApiClient.ApiItem>
  {
    if k == 0 then [] else Pages(results, pageSize, k - 1) + PageItems(results, k - 1, pageSize)
  }

  /** The item `GetItem` builds from the fetched document: the requested index
      and endpoint, and `name` and `url` copied when the document has them.
      A present member that is not a string throws on conversion. */
  function ItemFromData(index: string, endpoint: string, data: Json): (r: Result<ProtoItem, string>)
    ensures r.Ok? <==> !data.Obj? || (ApiClient.StringOrAbsent(data, "name") && ApiClient.StringOrAbsent(data, "url"))
    ensures r.Ok? ==> r.value == ProtoItem(index, ApiClient.StringOr(data, "name"), ApiClient.StringOr(data, "url"), endpoint)
  {
    var name :- if HasMember(data, "name") then GetString(data.fields["name"]) else Ok("");
    var url :- if HasMember(data, "url") then GetString(data.fields["url"]) else Ok("");
    Ok(ProtoItem(index, name, url, endpoint))
  }

  /** An item document that the list parser accepts gives, through `GetItem`,
      the message `GetList` would give for the same item, with the index the
      request named. */
  lemma ItemAgreesWithList(index: string, endpoint: string, data: Json)
    requires ApiClient.Convertible(data)
    ensures var it := ApiClient.ItemOf(data);
            ItemFromData(index, endpoint, data) ==
              Ok(ConvertToProtoItem(ApiClient.ApiItem(index, it.name, it.url), endpoint))
  {
  }

  /** A document that is not an object copies neither name nor url. */
  lemma NonObjectItemHasOnlyIndex(index: string, endpoint: string, data: Json)
    requires !data.Obj?
    ensures ItemFromData(index, endpoint, data) == Ok(ProtoItem(index, "", "", endpoint))
  {
  }

  /** `HealthCheck`'s status choice, given what listing the endpoints gave:
      serving exactly when the list is non-empty; a failure reports not
      serving with its text. The gRPC status is OK in every case. */
  function HealthOf(listed: Result<seq<string>, string>): (h: HealthResponse)
    ensures h.status == Serving <==> listed.Ok? && listed.value != []
    ensures h.status != Serving ==> h.status == NotServing
    ensures listed.Err? ==> h.message == "Health check failed: " + listed.error
  {
    match listed
    case Err(what) => HealthResponse(NotServing, "Health check failed: " + what)
    case Ok(endpoints) =>
      if endpoints == [] then HealthResponse(NotServing, "API client not responding")
      else HealthResponse(Serving, "Server is healthy")
  }

  /** The reply message for one search hit. */
  function ToMessage(h: SearchEngine.SearchHit): ResultMessage
  {
    ResultMessage(ConvertToProtoItem(h.item, h.endpoint), h.matchedField, h.score)
  }

  /** The loop that converts the page's window of results, in order. */
  method ConvertWindow(results: seq<ApiClient.ApiItem>, lo: nat, hi: nat, endpoint: string) returns (items: seq<ProtoItem>)
    requires lo <= hi <= |results|
    ensures items == ConvertAll(results[lo..hi], endpoint)
  {
    items := [];
    var i := lo;
    while i < hi
      invariant lo <= i <= hi
      invariant items == ConvertAll(results[lo..i], endpoint)
    {
      items := items + [ConvertToProtoItem(results[i], endpoint)];
      i := i + 1;
    }
  }

  /** The loop that builds the response's results: one message per hit, in order. */
  method ToMessages(hits: seq<SearchEngine.SearchHit>) returns (messages: seq<ResultMessage>)
    ensures |messages| == |hits|
    ensures forall m :: 0 <= m < |hits| ==> messages[m] == ToMessage(hits[m])
  {
    messages := [];
    var k := 0;
    while k < |hits|
      invariant 0 <= k <= |hits|
      invariant |messages| == k
      invariant forall m :: 0 <= m < k ==> messages[m] == ToMessage(hits[m])
    {
      messages := messages + [ToMessage(hits[k])];
      k := k + 1;
    }
  }

  /** `Dnd5eServiceImpl`: the shared client and the search engine over it. */
  class Service {
    const api: ApiClient.Client
    const engine: SearchEngine.Engine

    constructor (api: ApiClient.Client)
      ensures this.api == api && fresh(engine) && engine.api == api && engine.cache == map[]
    {
      this.api := api;
      engine := new SearchEngine.Engine(api);
    }

    /** `GetEndpoints`: every endpoint, in order, and their number. */
    method GetEndpoints() returns (status: Status, response: EndpointsResponse)
      ensures status == Success
      ensures response.endpoints == api.GetEndpoints()
      ensures response.totalCount == |api.GetEndpoints()|
    {
      var endpoints := api.GetEndpoints();
      var listed: seq<string> := [];
      var i := 0;
      while i < |endpoints|
        invariant 0 <= i <= |endpoints|
        invariant listed == endpoints[..i]
      {
        listed := listed + [endpoints[i]];
        i := i + 1;
      }
      assert endpoints[..i] == endpoints;
      return Success, EndpointsResponse(listed, |endpoints|);
    }

    /** `GetList`: validate the endpoint before fetching; then echo the request,
        report the upstream count and serve the page. */
    method GetList(request: ListRequest, up: ApiClient.Upstream) returns (status: Status, response: ListResponse)
      ensures !api.IsValidEndpoint(request.endpoint) ==>
                status == Failure(InvalidArgument, "Invalid endpoint: " + request.endpoint) && response == EmptyList
      ensures var fetched := ApiClient.FetchList(api.baseUrl, api.validEndpoints, request.endpoint, up);
              api.IsValidEndpoint(request.endpoint) && fetched.Err? ==>
                status == Failure(Internal, "Failed to get list: " + fetched.error.What()) && response == EmptyList
      ensures var fetched := ApiClient.FetchList(api.baseUrl, api.validEndpoints, request.endpoint, up);
              api.IsValidEndpoint(request.endpoint) && fetched.Ok? ==>
                && status == Success
                && response.endpoint == request.endpoint
                && response.totalCount == fetched.value.count
                && response.page == request.page
                && response.pageSize == request.pageSize
                && response.hasMore == HasMore(|fetched.value.results|, request.page, request.pageSize)
                && response.items == ConvertAll(PageItems(fetched.value.results, request.page, request.pageSize), request.endpoint)
    {
      if !api.IsValidEndpoint(request.endpoint) {
        return Failure(InvalidArgument, "Invalid endpoint: " + request.endpoint), EmptyList;
      }
      var fetched := api.GetList(request.endpoint, up);
      if fetched.Err? {
        return Failure(Internal, "Failed to get list: " + fetched.error.What()), EmptyList;
      }
      var results := fetched.value.results;
      var start := request.page * request.pageSize;
      var end := Min(start + request.pageSize, |results|);
      var lo := Max(start, 0);
      var items: seq<ProtoItem> := [];
      if lo < end {
        items := ConvertWindow(results, lo, end, request.endpoint);
      }
      response := ListResponse(request.endpoint, fetched.value.count, request.page, request.pageSize,
                               end < |results|, items);
      status := Success;
    }

    /** `GetItem`: validate the endpoint before fetching; the item carries the
        requested index and endpoint, and the document's name and url. */
    method GetItem(endpoint: string, index: string, up: ApiClient.Upstream) returns (status: Status, response: ItemResponse)
      ensures !api.IsValidEndpoint(endpoint) ==>
                status == Failure(InvalidArgument, "Invalid endpoint: " + endpoint) && response == ItemResponse(EmptyItem, None)
      ensures var fetched := ApiClient.FetchItem(api.baseUrl, api.validEndpoints, endpoint, index, up);
              api.IsValidEndpoint(endpoint) && fetched.Err? ==>
                status == Failure(Internal, "Failed to get item: " + fetched.error.What()) && response == ItemResponse(EmptyItem, None)
      ensures var fetched := ApiClient.FetchItem(api.baseUrl, api.validEndpoints, endpoint, index, up);
              api.IsValidEndpoint(endpoint) && fetched.Ok? ==>
                match ItemFromData(index, endpoint, fetched.value)
                case Err(what) => status == Failure(Internal, "Failed to get item: " + what) && response == ItemResponse(EmptyItem, None)
                case Ok(item) => status == Success && response == ItemResponse(item, Some(fetched.value))
    {
      if !api.IsValidEndpoint(endpoint) {
        return Failure(InvalidArgument, "Invalid endpoint: " + endpoint), ItemResponse(EmptyItem, None);
      }
      var fetched := api.GetItem(endpoint, index, up);
      if fetched.Err? {
        return Failure(Internal, "Failed to get item: " + fetched.error.What()), ItemResponse(EmptyItem, None);
      }
      match ItemFromData(index, endpoint, fetched.value)
      case Err(what) =>
        status, response := Failure(Internal, "Failed to get item: " + what), ItemResponse(EmptyItem, None);
      case Ok(item) =>
        status, response := Success, ItemResponse(item, Some(fetched.value));
    }

    /** `SearchItems`: an empty query is rejected before any search; otherwise
        the engine's ranked hits, their number as `total_found`. */
    method SearchItems(request: SearchRequest, up: ApiClient.Upstream) returns (status: Status, response: SearchResponse)
      requires engine.api == api
      modifies engine
      ensures request.query == "" ==>
                status == Failure(InvalidArgument, EmptyQueryMessage) && response == EmptySearch &&
                engine.cache == old(engine.cache)
      ensures request.query != "" && request.maxResults < 0 ==>
                status == Failure(Internal, "Failed to search items: " + SearchEngine.LengthErrorWhat) &&
                response == EmptySearch
      ensures var searched := if request.endpoints == [] then api.validEndpoints else request.endpoints;
              var src := SearchEngine.ListSource(api.baseUrl, api.validEndpoints, up);
              && (request.query != "" && request.maxResults >= 0 ==>
                    engine.cache == SearchEngine.FillAll(old(engine.cache), src, searched))
              && (request.query != "" && request.maxResults < 0 ==>
                    engine.cache == if searched == [] then old(engine.cache)
                                    else SearchEngine.Fill(old(engine.cache), src, searched[0]))
      ensures var searched := if request.endpoints == [] then api.validEndpoints else request.endpoints;
              var pool := SearchEngine.AllHits(old(engine.cache), SearchEngine.ListSource(api.baseUrl, api.validEndpoints, up),
                                               searched, request.query);
              request.query != "" && request.maxResults >= 0 ==>
                && status == Success
                && response.query == request.query
                && response.totalFound == |response.results| == Min(request.maxResults, |pool|)
                && (forall i, j :: 0 <= i < j < |response.results| ==>
                      response.results[i].relevanceScore >= response.results[j].relevanceScore)
                && (forall m :: m in response.results ==> m.item.endpoint in searched)
    {
      if request.query == "" {
        return Failure(InvalidArgument, EmptyQueryMessage), EmptySearch;
      }
      var endpoints: seq<string> := [];
      var i := 0;
      while i < |request.endpoints|
        invariant 0 <= i <= |request.endpoints|
        invariant endpoints == request.endpoints[..i]
      {
        endpoints := endpoints + [request.endpoints[i]];
        i := i + 1;
      }
      assert request.endpoints[..i] == request.endpoints;
      var found := engine.Search(request.query, endpoints, request.maxResults, up);
      if found.Err? {
        return Failure(Internal, "Failed to search items: " + found.error), EmptySearch;
      }
      var hits := found.value;
      var messages := ToMessages(hits);
      forall m | m in messages
        ensures m.item.endpoint in (if request.endpoints == [] then api.validEndpoints else request.endpoints)
      {
        var x :| 0 <= x < |messages| && messages[x] == m;
        assert hits[x] in hits;
      }
      status, response := Success, SearchResponse(request.query, |hits|, messages);
    }

    /** `HealthCheck`: the status choice over the client's endpoint list. */
    method HealthCheck() returns (status: Status, response: HealthResponse)
      ensures status == Success
      ensures response == HealthOf(Ok(api.GetEndpoints()))
    {
      var endpoints := api.GetEndpoints();
      if endpoints == [] {
        response := HealthResponse(NotServing, "API client not responding");
      } else {
        response := HealthResponse(Serving, "Server is healthy");
      }
      status := Success;
    }
  }

  /** A service over a freshly built client reports serving. */
  lemma FreshClientIsServing(api: ApiClient.Client)
    requires api.validEndpoints == ApiClient.KnownEndpoints()
    ensures HealthOf(Ok(api.GetEndpoints())).status == Serving
  {
  }
}
