/** The back end's client for the upstream D&D 5e REST API
    (back-end/src/api_client.cpp): the endpoint whitelist, URL building,
    the request status rule, the cURL write callback and the parsing of a
    list response. The HTTP transfer itself and the JSON text parser are
    oracles supplied by the caller (`Upstream`). */
module ApiClient {
  import opened Wrappers
  import opened Json
  import Text

  /** One entry of a list response: `ApiClient::ApiItem`. */
  datatype ApiItem = ApiItem(index: string, name: string, url: string)

  /** `ApiClient::ApiResponse`: the upstream `count` and the items. */
  datatype ApiResponse = ApiResponse(count: int, results: seq<ApiItem>)

  /** The two exception types the client throws, with their `what()` text. */
  datatype ApiError = InvalidArgument(what: string) | RuntimeError(what: string)
  {
    function What(): string {
      match this
      case InvalidArgument(w) => w
      case RuntimeError(w) => w
    }
  }

  /** A `size_t` value. */
  type SizeT = x: int | 0 <= x < 0x1_0000_0000_0000_0000

  /** A piece of body handed to the write callback in one call. */
  type Chunk = s: string | |s| < 0x1_0000_0000_0000_0000

  /** What one `curl_easy_perform` produced: the body pieces delivered to the
      write callback, the transfer error (`None` for CURLE_OK, otherwise
      the `curl_easy_strerror` text) and the HTTP response code. */
  datatype HttpOutcome = HttpOutcome(chunks: seq<Chunk>, curlError: Option<string>, status: int)

  /** What `nlohmann::json::parse` makes of a text: a value, or the `what()`
      of its parse error. */
  datatype Parsed = Parsed(json: Json) | Unparsable(detail: string)

  /** The world outside the client: the transfer for each URL and the JSON
      text parser. */
  datatype Upstream = Upstream(transport: string -> HttpOutcome, parse: string -> Parsed)

  const DefaultBaseUrl: string := "https://www.dnd5eapi.co/api/2014"
  const DefaultTimeoutSeconds: int := 30
  const ParseFailurePrefix: string := "Failed to parse JSON response: "

  /** The fixed list that `LoadValidEndpoints` installs, in declaration order. */
  function KnownEndpoints(): (r: seq<string>)
    ensures |r| == 24
    ensures forall i, j :: 0 <= i < j < |r| ==> r[i] != r[j]
  {
    ["ability-scores", "alignments", "backgrounds", "classes", "conditions",
     "damage-types", "equipment", "equipment-categories", "feats", "features",
     "languages", "magic-items", "magic-schools", "monsters", "proficiencies",
     "races", "rule-sections", "rules", "skills", "spells", "subclasses",
     "subraces", "traits", "weapon-properties"]
  }

  /** The URL `GetList` requests: base + "/" + endpoint. */
  function ListUrl(baseUrl: string, endpoint: string): string
  {
    baseUrl + "/" + endpoint
  }

  /** The URL `GetItem` requests: base + "/" + endpoint + "/" + index. */
  function ItemUrl(baseUrl: string, endpoint: string, index: string): string
  {
    ListUrl(baseUrl, endpoint) + "/" + index
  }

  /** An item URL extends the list URL of its endpoint by one path segment. */
  lemma ItemUrlExtendsListUrl(baseUrl: string, endpoint: string, index: string)
    ensures ItemUrl(baseUrl, endpoint, index) == ListUrl(baseUrl, endpoint) + "/" + index
    ensures ListUrl(baseUrl, endpoint) + "/" <= ItemUrl(baseUrl, endpoint, index)
  {
  }

  /** All the body pieces, in delivery order. */
  function Concat(chunks: seq<Chunk>): string
  {
    if |chunks| == 0 then "" else Concat(chunks[..|chunks| - 1]) + chunks[|chunks| - 1]
  }

  /** The rule of `MakeRequest`: a transfer error or any status other than 200
      throws `runtime_error`; otherwise the body is the concatenated pieces. */
  function RequestResult(o: HttpOutcome): (r: Result<string, ApiError>)
    ensures r.Ok? <==> o.curlError.None? && o.status == 200
    ensures r.Ok? ==> r.value == Concat(o.chunks)
    ensures o.curlError.Some? ==> r == Err(RuntimeError("cURL error: " + o.curlError.value))
    ensures o.curlError.None? && o.status != 200 ==>
              r == Err(RuntimeError("HTTP error: " + Text.IntToString(o.status)))
  {
    if o.curlError.Some? then Err(RuntimeError("cURL error: " + o.curlError.value))
    else if o.status != 200 then Err(RuntimeError("HTTP error: " + Text.IntToString(o.status)))
    else Ok(Concat(o.chunks))
  }

  /** The `std::string` the write callback appends to. */
  class ResponseBuffer {
    var data: string

    constructor ()
      ensures data == ""
    {
      data := "";
    }
  }

  /** `WriteCallback`: appends `size * nmemb` bytes (a `size_t` product, so
      modulo 2^64) of `contents` to the buffer and reports that many written. */
  method WriteCallback(contents: string, size: SizeT, nmemb: SizeT, userp: ResponseBuffer)
    returns (written: SizeT)
    requires (size * nmemb) % 0x1_0000_0000_0000_0000 <= |contents|
    modifies userp
    ensures written == (size * nmemb) % 0x1_0000_0000_0000_0000
    ensures userp.data == old(userp.data) + contents[..written]
  {
    written := (size * nmemb) % 0x1_0000_0000_0000_0000;
    userp.data := userp.data + contents[..written];
  }

  /** `MakeRequest`: the transfer delivers its pieces to `WriteCallback`
      (size 1, nmemb = piece length), then the status rule decides. */
  method MakeRequest(url: string, up: Upstream) returns (r: Result<string, ApiError>)
    ensures r == RequestResult(up.transport(url))
  {
    var outcome := up.transport(url);
    var responseData := new ResponseBuffer();
    var k := 0;
    while k < |outcome.chunks|
      invariant 0 <= k <= |outcome.chunks|
      invariant responseData.data == Concat(outcome.chunks[..k])
    {
      var piece := outcome.chunks[k];
      var n := WriteCallback(piece, 1, |piece|, responseData);
      assert outcome.chunks[..k + 1][..k] == outcome.chunks[..k];
      k := k + 1;
    }
    assert outcome.chunks[..k] == outcome.chunks;
    if outcome.curlError.Some? {
      r := Err(RuntimeError("cURL error: " + outcome.curlError.value));
    } else if outcome.status != 200 {
      r := Err(RuntimeError("HTTP error: " + Text.IntToString(outcome.status)));
    } else {
      r := Ok(responseData.data);
    }
  }

  /** One element of `results`: `index`, `name` and `url` read with
      `value(key, "")`. */
  function ParseItem(j: Json): (r: Result<ApiItem, string>)
    ensures r.Ok? <==> Convertible(j)
    ensures r.Ok? ==> r.value == ItemOf(j)
  {
    var index :- ValueString(j, "index", "");
    var name :- ValueString(j, "name", "");
    var url :- ValueString(j, "url", "");
    Ok(ApiItem(index, name, url))
  }

  /** An object whose `index`, `name` and `url`, where present, are strings. */
  predicate Convertible(j: Json)
  {
    && j.Obj?
    && StringOrAbsent(j, "index")
    && StringOrAbsent(j, "name")
    && StringOrAbsent(j, "url")
  }

  predicate StringOrAbsent(j: Json, key: string)
    requires j.Obj?
  {
    key in j.fields ==> j.fields[key].Str?
  }

  /** The item an object converts to: each field its string, or "". */
  function ItemOf(j: Json): ApiItem
  {
    ApiItem(StringOr(j, "index"), StringOr(j, "name"), StringOr(j, "url"))
  }

  /** The string member `key` of an object, or "" when it is absent. */
  function StringOr(j: Json, key: string): string
  {
    if j.Obj? && key in j.fields && j.fields[key].Str? then j.fields[key].s else ""
  }

  /** The items of a `results` array, in order; the first element that does
      not convert makes the whole parse fail. */
  function ParseItems(elems: seq<Json>): (r: Result<seq<ApiItem>, string>)
    ensures r.Ok? <==> forall i :: 0 <= i < |elems| ==> Convertible(elems[i])
    ensures r.Ok? ==> |r.value| == |elems| &&
                      forall i :: 0 <= i < |elems| ==> r.value[i] == ItemOf(elems[i])
  {
    if |elems| == 0 then Ok([])
    else
      var n := |elems| - 1;
      match ParseItems(elems[..n])
      case Err(e) =>
        assert forall i :: 0 <= i < n ==> elems[..n][i] == elems[i];
        Err(e)
      case Ok(init) =>
        match ParseItem(elems[n])
        case Err(e) => Err(e)
        case Ok(last) =>
          assert forall i :: 0 <= i < n ==> elems[..n][i] == elems[i];
          Ok(init + [last])
  }

  /** Once a prefix of the array fails, the whole array fails with the same error. */
  lemma {:induction false} ParseItemsPrefixFails(elems: seq<Json>, i: nat)
    requires i <= |elems| && ParseItems(elems[..i]).Err?
    ensures ParseItems(elems) == ParseItems(elems[..i])
    decreases |elems| - i
  {
    if i < |elems| {
      var longer := elems[..i + 1];
      assert longer[..|longer| - 1] == elems[..i];
      ParseItemsPrefixFails(elems, i + 1);
    } else {
      assert elems[..i] == elems;
    }
  }

  /** The results of a parsed document: read only when `results` is an array. */
  function ResultsOf(j: Json): seq<Json>
  {
    if HasMember(j, "results") && j.fields["results"].Arr? then j.fields["results"].elems else []
  }

  /** `ParseListResponse` on an already-parsed document. */
  function ParseListJson(j: Json): (r: Result<ApiResponse, string>)
    ensures r.Ok? <==> ValueInt(j, "count", 0).Ok? && ParseItems(ResultsOf(j)).Ok?
    ensures r.Ok? ==> r.value.count == ValueInt(j, "count", 0).value
    ensures r.Ok? ==> r.value.results == ParseItems(ResultsOf(j)).value
  {
    var count :- ValueInt(j, "count", 0);
    var items :- ParseItems(ResultsOf(j));
    Ok(ApiResponse(count, items))
  }

  /** `ParseListResponse` on the body text: JSON errors, in `parse` or in
      reading members, become `runtime_error`. */
  function ListResponseOf(body: string, parse: string -> Parsed): Result<ApiResponse, ApiError>
  {
    match parse(body)
    case Unparsable(d) => Err(RuntimeError(ParseFailurePrefix + d))
    case Parsed(j) =>
      match ParseListJson(j)
      case Ok(resp) => Ok(resp)
      case Err(w) => Err(RuntimeError(ParseFailurePrefix + w))
  }

  /** `ParseListResponse`, pushing one converted item per array element. */
  method ParseListResponse(body: string, parse: string -> Parsed) returns (r: Result<ApiResponse, ApiError>)
    ensures r == ListResponseOf(body, parse)
  {
    var parsed := parse(body);
    if parsed.Unparsable? {
      return Err(RuntimeError(ParseFailurePrefix + parsed.detail));
    }
    var json := parsed.json;
    var count := ValueInt(json, "count", 0);
    if count.Err? {
      return Err(RuntimeError(ParseFailurePrefix + count.error));
    }
    var results: seq<ApiItem> := [];
    if HasMember(json, "results") && json.fields["results"].Arr? {
      var elems := json.fields["results"].elems;
      var i := 0;
      while i < |elems|
        invariant 0 <= i <= |elems|
        invariant ParseItems(elems[..i]) == Ok(results)
      {
        var item := ParseItem(elems[i]);
        var prefix := elems[..i + 1];
        assert prefix[..|prefix| - 1] == elems[..i];
        if item.Err? {
          ParseItemsPrefixFails(elems, i + 1);
          return Err(RuntimeError(ParseFailurePrefix + item.error));
        }
        results := results + [item.value];
        i := i + 1;
      }
      assert elems[..i] == elems;
    }
    r := Ok(ApiResponse(count.value, results));
  }

  /** The JSON an item is written as. */
  function ItemJson(item: ApiItem): Json
  {
    Obj(map["index" := Str(item.index), "name" := Str(item.name), "url" := Str(item.url)])
  }

  /** The same item with its empty fields left out. */
  function CompactItemJson(item: ApiItem): Json
  {
    var m0: map<string, Json> := map[];
    var m1 := if item.index == "" then m0 else m0["index" := Str(item.index)];
    var m2 := if item.name == "" then m1 else m1["name" := Str(item.name)];
    var m3 := if item.url == "" then m2 else m2["url" := Str(item.url)];
    Obj(m3)
  }

  /** A list document with the given count and items. */
  function ListJson(count: int, items: seq<Json>): Json
  {
    Obj(map["count" := Num(count), "results" := Arr(items)])
  }

  function ItemsJson(items: seq<ApiItem>, compact: bool): (r: seq<Json>)
    ensures |r| == |items|
    ensures forall i :: 0 <= i < |items| ==>
              r[i] == if compact then CompactItemJson(items[i]) else ItemJson(items[i])
  {
    seq(|items|, i requires 0 <= i < |items| =>
      if compact then CompactItemJson(items[i]) else ItemJson(items[i]))
  }

  /** Parsing the document of a response gives that response back, in order,
      whether or not empty fields were written: a missing field reads as "".
      Nothing ties `count` to the number of results. */
  lemma ParseListJsonRoundTrip(resp: ApiResponse, compact: bool)
    ensures ParseListJson(ListJson(resp.count, ItemsJson(resp.results, compact))) == Ok(resp)
  {
    var elems := ItemsJson(resp.results, compact);
    var j := ListJson(resp.count, elems);
    assert ResultsOf(j) == elems;
    forall i | 0 <= i < |elems|
      ensures Convertible(elems[i]) && ItemOf(elems[i]) == resp.results[i]
    {
      ItemJsonConverts(resp.results[i], compact);
    }
    var r := ParseItems(elems);
    assert r.Ok?;
    assert r.value == resp.results;
  }

  /** One written item converts back to itself. */
  lemma ItemJsonConverts(it: ApiItem, compact: bool)
    ensures var j := if compact then CompactItemJson(it) else ItemJson(it);
            Convertible(j) && ItemOf(j) == it
  {
    var j := if compact then CompactItemJson(it) else ItemJson(it);
    var keys := ["index", "name", "url"];
    var vals := [it.index, it.name, it.url];
    assert "index" != "name" && "index" != "url" && "name" != "url" by {
      assert "index"[0] != "name"[0] && "index"[0] != "url"[0] && "name"[0] != "url"[0];
    }
    forall k | 0 <= k < 3
      ensures keys[k] in j.fields ==> j.fields[keys[k]] == Str(vals[k])
      ensures StringOr(j, keys[k]) == vals[k]
    {
    }
    assert StringOr(j, "index") == it.index;
    assert StringOr(j, "name") == it.name;
    assert StringOr(j, "url") == it.url;
  }

  /** A top-level document that is not an object fails to parse, even an array. */
  lemma NonObjectDocumentFails(j: Json)
    requires !j.Obj?
    ensures ParseListJson(j).Err?
  {
  }

  /** A `results` member that is not an array is skipped; `count` alone decides. */
  lemma NonArrayResultsIgnored(j: Json)
    requires j.Obj? && "results" in j.fields && !j.fields["results"].Arr?
    requires ValueInt(j, "count", 0).Ok?
    ensures ParseListJson(j) == Ok(ApiResponse(ValueInt(j, "count", 0).value, []))
  {
  }

  /** The request outcome of a list fetch. */
  function FetchList(baseUrl: string, valid: seq<string>, endpoint: string, up: Upstream): Result<ApiResponse, ApiError>
  {
    if endpoint !in valid then Err(InvalidArgument("Invalid endpoint: " + endpoint))
    else
      match RequestResult(up.transport(ListUrl(baseUrl, endpoint)))
      case Err(e) => Err(e)
      case Ok(body) => ListResponseOf(body, up.parse)
  }

  /** The request outcome of an item fetch. */
  function FetchItem(baseUrl: string, valid: seq<string>, endpoint: string, index: string, up: Upstream): Result<Json, ApiError>
  {
    if endpoint !in valid then Err(InvalidArgument("Invalid endpoint: " + endpoint))
    else
      match RequestResult(up.transport(ItemUrl(baseUrl, endpoint, index)))
      case Err(e) => Err(e)
      case Ok(body) =>
        match up.parse(body)
        case Parsed(j) => Ok(j)
        case Unparsable(d) => Err(RuntimeError(ParseFailurePrefix + d))
  }

  /** An endpoint outside the whitelist is refused with `invalid_argument`
      whatever the upstream would have answered: no URL is requested. */
  lemma InvalidEndpointIsNotFetched(baseUrl: string, valid: seq<string>, endpoint: string, index: string, up1: Upstream, up2: Upstream)
    requires endpoint !in valid
    ensures FetchList(baseUrl, valid, endpoint, up1) == FetchList(baseUrl, valid, endpoint, up2)
              == Err(InvalidArgument("Invalid endpoint: " + endpoint))
    ensures FetchItem(baseUrl, valid, endpoint, index, up1) == FetchItem(baseUrl, valid, endpoint, index, up2)
              == Err(InvalidArgument("Invalid endpoint: " + endpoint))
  {
  }

  /** A valid list fetch depends on the upstream only through the list URL. */
  lemma FetchListReadsOnlyListUrl(baseUrl: string, valid: seq<string>, endpoint: string, up1: Upstream, up2: Upstream)
    requires endpoint in valid
    requires up1.transport(ListUrl(baseUrl, endpoint)) == up2.transport(ListUrl(baseUrl, endpoint))
    requires forall s :: up1.parse(s) == up2.parse(s)
    ensures FetchList(baseUrl, valid, endpoint, up1) == FetchList(baseUrl, valid, endpoint, up2)
  {
  }

  /** `ApiClient`: its base URL, timeout and endpoint whitelist. */
  class Client {
    const baseUrl: string
    var timeoutSeconds: int
    var validEndpoints: seq<string>

    /** The constructor sets the 30 s timeout and loads the whitelist. */
    constructor (baseUrl: string)
      ensures this.baseUrl == baseUrl
      ensures timeoutSeconds == DefaultTimeoutSeconds
      ensures validEndpoints == KnownEndpoints()
    {
      this.baseUrl := baseUrl;
      timeoutSeconds := DefaultTimeoutSeconds;
      validEndpoints := [];
      new;
      LoadValidEndpoints();
    }

    /** `LoadValidEndpoints`: installs the fixed whitelist. */
    method LoadValidEndpoints()
      modifies this
      ensures validEndpoints == KnownEndpoints()
      ensures timeoutSeconds == old(timeoutSeconds)
    {
      validEndpoints := KnownEndpoints();
    }

    /** `SetTimeout`: only the timeout changes. */
    method SetTimeout(seconds: int)
      modifies this
      ensures timeoutSeconds == seconds
      ensures validEndpoints == old(validEndpoints)
    {
      timeoutSeconds := seconds;
    }

    /** `GetEndpoints`: the whitelist, in order. */
    function GetEndpoints(): seq<string>
      reads this
    {
      validEndpoints
    }

    /** `IsValidEndpoint`: membership in the whitelist. */
    function IsValidEndpoint(endpoint: string): bool
      reads this
    {
      endpoint in validEndpoints
    }

    /** `GetList`: validate, request base/endpoint, parse. */
    method GetList(endpoint: string, up: Upstream) returns (r: Result<ApiResponse, ApiError>)
      ensures r == FetchList(baseUrl, validEndpoints, endpoint, up)
    {
      if !IsValidEndpoint(endpoint) {
        return Err(InvalidArgument("Invalid endpoint: " + endpoint));
      }
      var url := ListUrl(baseUrl, endpoint);
      var response := MakeRequest(url, up);
      if response.Err? {
        return Err(response.error);
      }
      r := ParseListResponse(response.value, up.parse);
    }

    /** `GetItem`: validate, request base/endpoint/index, parse. */
    method GetItem(endpoint: string, index: string, up: Upstream) returns (r: Result<Json, ApiError>)
      ensures r == FetchItem(baseUrl, validEndpoints, endpoint, index, up)
    {
      if !IsValidEndpoint(endpoint) {
        return Err(InvalidArgument("Invalid endpoint: " + endpoint));
      }
      var url := ItemUrl(baseUrl, endpoint, index);
      var response := MakeRequest(url, up);
      if response.Err? {
        return Err(response.error);
      }
      match up.parse(response.value)
      case Parsed(j) => r := Ok(j);
      case Unparsable(d) => r := Err(RuntimeError(ParseFailurePrefix + d));
    }
  }

  /** On a freshly built client, an endpoint is valid exactly when it is one
      of the 24 fixed names, and `GetEndpoints` lists them in declaration order. */
  lemma ValidEndpointsAreTheFixedList(c: Client, endpoint: string)
    requires c.validEndpoints == KnownEndpoints()
    ensures c.IsValidEndpoint(endpoint) <==> exists i :: 0 <= i < 24 && KnownEndpoints()[i] == endpoint
    ensures c.GetEndpoints() == KnownEndpoints()
  {
  }
}
