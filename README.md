# DND 5e API project — a verified model of its rule sets

The system is a Dungeons & Dragons 5th-edition reference browser. It has
three parts:

- a C++ gRPC back end that fetches lists and items from the public D&D 5e
  REST API, searches and caches them, and serves them as protobuf messages;
- a Vue/Pinia front end whose store keeps one fetch state per list endpoint;
- a Node command-line simulator that calls the back end's RPCs by name.

Each part has small rule sets, and this project models them in Dafny and
proves what they promise. The rule sets are argument parsing, endpoint
validation, URL building, parsing of list documents, relevance scoring,
ranking and caching, pagination, service health, fetch-state transitions,
item validation and the connectivity probe of the integration suite.

| file | module | models |
|---|---|---|
| wrappers.dfy | `Wrappers` | `Option` and `Result`, with `:-` |
| json.dfy | `Json` | an already-parsed JSON value; nlohmann's `get<int>`, `get<std::string>` and `value(key, default)` |
| text.dfy | `Text` | JavaScript `split`/`join`, `std::string::find`, `std::tolower` in the "C" locale, `std::to_string` |
| api_client.dfy | `ApiClient` | back-end/src/api_client.cpp: the 24-endpoint whitelist, URLs, the write callback, the status rule of `MakeRequest`, `ParseListResponse`, the `ApiClient` class |
| search_engine.dfy | `SearchEngine` | back-end/src/search_engine.cpp: matching, scores, hits, ranking, the cache, the `SearchEngine` class |
| dnd5e_service.dfy | `Dnd5eService` | back-end/src/dnd5e_service.cpp: the five RPC handlers (`GetEndpoints`, `GetList`, `GetItem`, `SearchItems`, `HealthCheck`) and `ConvertToProtoItem` |
| server_main.dfy | `ServerMain` | back-end/src/main.cpp: the argument loop and the exit status |
| simulator.dfy | `Simulator` | simulator/sim.js: `parseArgs`, `listServices`, the method-path checks and the resolution in `main` |
| grpc_probe.dfy | `GrpcProbe` | the `waitForGrpc` probe and `beforeAll` of the back-end integration suite |
| store.dfy | `Store` | src/stores/dnd5e.ts: fetch-state buckets, the getters, `fetchList` and `fetchAll` |
| data_integrity.dfy | `DataIntegrity` | `validateApiItem` of the API data-integrity suite |

Each piece takes the same form as its source.

- Code that updates state in place is written as imperative Dafny. This covers:
  - the `ApiClient`, `SearchEngine` and `Dnd5eServiceImpl` objects;
  - the store's buckets;
  - the write-callback buffer;
  - the argument loops of `main.cpp` and `sim.js`;
  - the `listServices` loops;
  - the probe's re-arming loop.
  Most methods are proved equal to a specification function, and the
  promised properties are proved about that function as lemmas. The search
  methods (`Engine.SearchInEndpoint`, `Engine.CollectHits`, `Engine.Search`,
  `Service.SearchItems`) are the exception. `std::sort` leaves the order of
  equal scores open, so their contracts are relations instead: the top-k
  property (`IsTopK`), the ranked merge (`RankedFrom`), and the counts and
  order of the results. Their new cache is still given exactly.
- The pure decisions are Dafny functions with contracts. These are matching,
  scoring, validation, health and conversion.

These inputs are modelled as oracles:

- the network (an `Upstream` from URL to transport outcome);
- `JSON.parse` and `nlohmann::json::parse`, as a function from text to an
  already-parsed value;
- the file read of the simulator;
- the channel and the clock of the probe, as a finite trace of rounds;
- the server's lifecycle steps.

Scores are integer tenths: 10 stands for `1.0f`.

## Model

| member | source | states |
|---|---|---|
| Json.GetInt | back-end/src/api_client.cpp:127 | integer conversion succeeds exactly on numbers and booleans, giving a number its own value |
| Json.GetString | back-end/src/dnd5e_service.cpp:102-107 | string conversion succeeds exactly on strings and gives the string |
| Json.ValueInt | back-end/src/api_client.cpp:127 | `value(key, default)`: an object without the key gives the default, with it the conversion of its value; a non-object is a type error |
| Json.ValueString | back-end/src/api_client.cpp:132-134 | the same rule for string members |
| Text.IndexOf | simulator/sim.js:84 | the first position of the character, with none before it; `None` exactly when it does not occur |
| Text.Split | simulator/sim.js:91 | at least one part, and no part contains the separator |
| Text.SplitCount | simulator/sim.js:91-92 | the number of parts is the number of separators plus one |
| Text.SplitIncludes | simulator/sim.js:84-92 | the string contains the separator exactly when it splits into two or more parts |
| Text.JoinSplit | simulator/sim.js:91 | joining the parts with the separator gives back the string |
| Text.FindFrom | back-end/src/search_engine.cpp:148 | the first occurrence at or after the start; `None` exactly when there is no occurrence there |
| Text.FindZeroIsPrefix | back-end/src/search_engine.cpp:115 | `find` returns 0 exactly when the pattern is a prefix |
| Text.Lower | back-end/src/search_engine.cpp:140-146 | same length, each character lowered in the "C" locale |
| Text.NatToString | back-end/src/api_client.cpp:63 | decimal digits that spell the number, with no leading zero |
| Text.NatToStringInjective | back-end/src/api_client.cpp:63 | distinct numbers are written differently |
| Text.IntToString | back-end/src/api_client.cpp:63 | `std::to_string`: a minus sign exactly for negative numbers, then decimal digits that spell the magnitude, with no leading zero |
| Text.IntToStringInjective | back-end/src/api_client.cpp:63 | distinct status codes give distinct "HTTP error: …" texts |
| ApiClient.KnownEndpoints | back-end/src/api_client.cpp:146-173 | the whitelist holds 24 distinct endpoints |
| ApiClient.ItemUrlExtendsListUrl | back-end/src/api_client.cpp:81-92 | the item URL is the list URL extended by "/" and the index |
| ApiClient.RequestResult | back-end/src/api_client.cpp:50-67 | a transport error fails with "cURL error: …", any status other than 200 with "HTTP error: <status>", and 200 gives the body |
| ApiClient.ResponseBuffer.constructor | back-end/src/api_client.cpp:44 | the response buffer starts empty |
| ApiClient.WriteCallback | back-end/src/api_client.cpp:70-74 | appends exactly `size*nmemb` bytes (a 64-bit product) and returns that count |
| ApiClient.MakeRequest | back-end/src/api_client.cpp:43-68 | the body is the concatenation of the delivered pieces, and the result follows the status rule |
| ApiClient.ParseItem | back-end/src/api_client.cpp:131-135 | an object item converts when its present fields are strings; a missing field reads as "" |
| ApiClient.ParseItems | back-end/src/api_client.cpp:129-137 | succeeds exactly when every element converts, keeping their order |
| ApiClient.ParseItemsPrefixFails | back-end/src/api_client.cpp:130-142 | one element that does not convert fails the whole list |
| ApiClient.ParseListJson | back-end/src/api_client.cpp:126-139 | `count` defaults to 0; results are read only from an array; a non-object document is an error |
| ApiClient.ParseListResponse | back-end/src/api_client.cpp:122-144 | the loop equals the parse of the document; a parse or type error becomes a `runtime_error` |
| ApiClient.ParseListJsonRoundTrip | back-end/src/api_client.cpp:127-137 | parsing the document of a response gives it back in order, whether or not empty fields are written; `count` is not reconciled with the results |
| ApiClient.ItemJsonConverts | back-end/src/api_client.cpp:131-135 | an item written with all fields, or with its empty fields left out, converts back to the same item |
| ApiClient.NonObjectDocumentFails | back-end/src/api_client.cpp:127-142 | any document that is not an object fails to parse |
| ApiClient.NonArrayResultsIgnored | back-end/src/api_client.cpp:129 | a `results` member that is not an array gives no items |
| ApiClient.InvalidEndpointIsNotFetched | back-end/src/api_client.cpp:76-90 | an endpoint outside the whitelist fails with "Invalid endpoint: …" whatever the upstream does |
| ApiClient.FetchListReadsOnlyListUrl | back-end/src/api_client.cpp:76-85 | a list fetch depends only on what the upstream returns for the list URL |
| ApiClient.Client.constructor | back-end/src/api_client.cpp:9-13 | the base URL is kept, the 30-second timeout set and the whitelist loaded |
| ApiClient.Client.LoadValidEndpoints | back-end/src/api_client.cpp:146-174 | the whitelist becomes the 24 endpoints in declaration order |
| ApiClient.Client.SetTimeout | back-end/src/api_client.cpp:115-120 | the timeout field becomes the given seconds, and nothing else changes |
| ApiClient.Client.GetList | back-end/src/api_client.cpp:76-85 | checks the endpoint before any request, then fetches and parses the list URL |
| ApiClient.Client.GetItem | back-end/src/api_client.cpp:87-100 | checks the endpoint before any request, then fetches and parses the item URL |
| ApiClient.ValidEndpointsAreTheFixedList | back-end/src/api_client.cpp:102-109 | after loading, `GetEndpoints` is the fixed list and `IsValidEndpoint` is membership in it |
| SearchEngine.ListSourceFetches | back-end/src/search_engine.cpp:160 | the engine fetches an endpoint's items exactly as the client's `GetList` does |
| SearchEngine.ContainsQuery | back-end/src/search_engine.cpp:134-149 | false when text or query is empty; otherwise an ASCII-lowercased substring test |
| SearchEngine.ContainsQueryIgnoresCase | back-end/src/search_engine.cpp:139-148 | inputs that lower to the same strings give the same answer |
| SearchEngine.RelevanceScore | back-end/src/search_engine.cpp:103-132 | exact 10, prefix 8, contains 6, plus 2 for `name` or 1 for `index`, capped at 10, so within [0, 10] |
| SearchEngine.SearchInItem | back-end/src/search_engine.cpp:169-199 | a hit exactly when name or index contains the query; `matched_field` prefers "name"; the hit carries the item, the endpoint and its score (7 to 10) |
| SearchEngine.ExactMatchRanksFirst | back-end/src/search_engine.cpp:110-131 | an item whose name or index equals the query scores at least as high as any other hit |
| SearchEngine.EmptyQueryNoHit | back-end/src/search_engine.cpp:135-137 | the empty query matches nothing |
| SearchEngine.HitsSoundComplete | back-end/src/search_engine.cpp:53-58 | the hits of an item list are exactly the per-item hits, all tagged with the endpoint |
| SearchEngine.HitsSound | back-end/src/search_engine.cpp:53-58 | every hit comes from some item and carries the endpoint |
| SearchEngine.HitsComplete | back-end/src/search_engine.cpp:53-58 | every item that matches contributes its hit |
| SearchEngine.InsertByScore | back-end/src/search_engine.cpp:32-35 | inserting into a list sorted by descending score keeps it sorted and is a permutation of the list plus the new hit |
| SearchEngine.SortByScore | back-end/src/search_engine.cpp:31-35 | sorted by non-increasing score and a permutation of the input |
| SearchEngine.SortedPrefixDominates | back-end/src/search_engine.cpp:37-40 | in a sorted list, nothing after a cut point scores above anything before it |
| SearchEngine.SortedPrefixKeepsBest | back-end/src/search_engine.cpp:60-69 | a prefix of a sorted permutation holds every hit of the pool that beats something it dropped |
| SearchEngine.TakeOfSortedIsTopK | back-end/src/search_engine.cpp:60-69 | cutting a sorted permutation to k gives the top k: sorted, min(k, n) long, drawn from the pool, keeping the best |
| SearchEngine.RankAndCut | back-end/src/search_engine.cpp:60-69 | sort then `resize`: the top `max` hits, or the `length_error` of `resize` when `max` is negative |
| SearchEngine.FillAllAddsOnlyMisses | back-end/src/search_engine.cpp:151-167 | reading endpoints through the cache adds the loaded lists of the missing ones and keeps every cached entry |
| SearchEngine.PreloadOverwrites | back-end/src/search_engine.cpp:74-89 | preloading overwrites each endpoint that loads and leaves failed ones as they were |
| SearchEngine.DataForStable | back-end/src/search_engine.cpp:151-162 | once read, an endpoint reads the same through the filled cache (for one that failed, only because the upstream answers each URL one way) |
| SearchEngine.AllHitsEndpoints | back-end/src/search_engine.cpp:26-29 | every merged hit comes from a searched endpoint |
| SearchEngine.MergeStep | back-end/src/search_engine.cpp:26-29 | appending one endpoint's top k keeps the merge drawn from the pooled hits, with its count in step |
| SearchEngine.RankedMerge | back-end/src/search_engine.cpp:31-40 | ranking the merge gives a sorted list, as long as the limit and pool allow, drawn from the pool, from searched endpoints |
| SearchEngine.Engine.constructor | back-end/src/search_engine.cpp:9-11 | the engine shares the client and starts with an empty cache |
| SearchEngine.Engine.GetEndpointData | back-end/src/search_engine.cpp:151-167 | a cached entry is returned unchanged without fetching; a miss stores the fetched list; a failure returns nothing and leaves the cache |
| SearchEngine.Engine.SearchInEndpoint | back-end/src/search_engine.cpp:45-72 | the top `max_results` hits of the endpoint's items, best first; a negative limit is the `resize` error after the data was read |
| SearchEngine.Engine.CollectHits | back-end/src/search_engine.cpp:26-29 | the per-endpoint selections in order, drawn from all the hits, and the cache as filled by reading each endpoint; a negative limit fails at the first endpoint, after its data was read |
| SearchEngine.Engine.Search | back-end/src/search_engine.cpp:13-43 | no endpoints means all of them; the answer is sorted, min(max, hits) long, drawn from the hits of the searched endpoints; on the `resize` error only the first endpoint's read has reached the cache |
| SearchEngine.Engine.PreloadData | back-end/src/search_engine.cpp:74-89 | the cache becomes the old one overwritten by every endpoint that loads |
| SearchEngine.Engine.ClearCache | back-end/src/search_engine.cpp:91-93 | the cache is empty |
| SearchEngine.Engine.GetCacheStats | back-end/src/search_engine.cpp:95-101 | one entry per cached endpoint, its item count |
| Dnd5eService.ConvertToProtoItem | back-end/src/dnd5e_service.cpp:196-207 | copies index, name and url and sets the given endpoint |
| Dnd5eService.ConvertKeepsFields | back-end/src/dnd5e_service.cpp:200-204 | the item's fields can be read back from the message, so conversion loses nothing |
| Dnd5eService.ConvertAll | back-end/src/dnd5e_service.cpp:66-70 | one message per item, in order |
| Dnd5eService.NegativePageReadsBeforeResults | back-end/src/dnd5e_service.cpp:59-70 | as written, page -1 of size 10 over 5 results makes the loop start at index -10 |
| Dnd5eService.WrappedProductServesFirstPage | back-end/src/dnd5e_service.cpp:59-61 | as written, page 65536 of size 65536 wraps to start 0 and serves the first page |
| Dnd5eService.PageItems | back-end/src/dnd5e_service.cpp:59-70 | the results `[page*size, min(page*size+size, n))` in order; nothing from a start at or past the end |
| Dnd5eService.HasMoreIffResultsBeyond | back-end/src/dnd5e_service.cpp:63-64 | `has_more` exactly when the page ends before the results do |
| Dnd5eService.PageItemsClamped | back-end/src/dnd5e_service.cpp:59-70 | a page's length is its size cut at the end of the results |
| Dnd5eService.PagesTile | back-end/src/dnd5e_service.cpp:59-70 | the first k pages together are the first min(k*size, n) results |
| Dnd5eService.ItemFromData | back-end/src/dnd5e_service.cpp:97-107 | the requested index and endpoint, and name and url only when present; a present non-string field is an error |
| Dnd5eService.ItemAgreesWithList | back-end/src/dnd5e_service.cpp:97-107 | an item document gives the same fields as that document read as a list entry |
| Dnd5eService.NonObjectItemHasOnlyIndex | back-end/src/dnd5e_service.cpp:102-107 | a document that is not an object gives just the index and endpoint |
| Dnd5eService.HealthOf | back-end/src/dnd5e_service.cpp:166-189 | SERVING exactly when a non-empty list was obtained, otherwise NOT_SERVING; an exception's text goes into the message |
| Dnd5eService.ConvertWindow | back-end/src/dnd5e_service.cpp:66-70 | the loop converts exactly the window of results |
| Dnd5eService.ToMessages | back-end/src/dnd5e_service.cpp:144-149 | one result message per hit, in order |
| Dnd5eService.Service.constructor | back-end/src/dnd5e_service.cpp:9-12 | the service shares the client with a fresh engine whose cache is empty |
| Dnd5eService.Service.GetEndpoints | back-end/src/dnd5e_service.cpp:14-35 | OK, the client's endpoints in order, and `total_count` their number |
| Dnd5eService.Service.GetList | back-end/src/dnd5e_service.cpp:37-78 | INVALID_ARGUMENT before any fetch for an invalid endpoint; INTERNAL on a fetch failure; otherwise the upstream count, the echoed page and size, `has_more` and the page's items |
| Dnd5eService.Service.GetItem | back-end/src/dnd5e_service.cpp:80-118 | INVALID_ARGUMENT before any fetch for an invalid endpoint; INTERNAL on a failure; otherwise the item and the raw document |
| Dnd5eService.Service.SearchItems | back-end/src/dnd5e_service.cpp:120-157 | an empty query is INVALID_ARGUMENT before any search; a negative limit is INTERNAL; otherwise `total_found` is the number of results, sorted, min(max, hits) long, from searched endpoints; the engine's cache becomes the fill of every searched endpoint, or of the first one only when the limit is negative |
| Dnd5eService.Service.HealthCheck | back-end/src/dnd5e_service.cpp:159-190 | status OK, with the health choice over the client's endpoint list |
| Dnd5eService.FreshClientIsServing | back-end/src/dnd5e_service.cpp:168-176 | a client with the fixed whitelist reports SERVING |
| Simulator.DefaultsWithoutFlags | simulator/sim.js:11 | with no recognised flag, target `localhost:50051`, empty method, payload `{}`, empty data file |
| Simulator.LastValueWins | simulator/sim.js:12-20 | the last occurrence of `--target`, `--method` or `--data-file` sets its field |
| Simulator.LastDataWins | simulator/sim.js:12-20 | the last `--data` sets the payload to its parsed value (the text "undefined" when it ends the command line) |
| Simulator.DataUntouched | simulator/sim.js:12-20 | tokens other than `--data` leave the payload as it was |
| Simulator.FieldUntouched | simulator/sim.js:12-20 | a field no token sets keeps its value |
| Simulator.IgnoredIsSkipped | simulator/sim.js:12-20 | an unrecognised argument changes nothing |
| Simulator.AllIgnored | simulator/sim.js:12-20 | a command line of unrecognised arguments leaves the arguments as they were |
| Simulator.DataFileOverrides | simulator/sim.js:21-25 | a truthy data file replaces the payload with its parsed contents, whatever the flag order |
| Simulator.ParseOne | simulator/sim.js:13-19 | one loop step applies the token at `i` and moves past the value it consumed |
| Simulator.ParseArgs | simulator/sim.js:10-27 | the loop equals applying the tokens of the command line in order, then the data-file rule |
| Simulator.PackageListingSound | simulator/sim.js:53-58 | a record is listed for a package exactly when it names a function-valued member and that service's methods |
| Simulator.ListingSound | simulator/sim.js:49-59 | a record is listed exactly when it comes from an object-valued package's service |
| Simulator.ListServices | simulator/sim.js:49-61 | the nested loops emit the listing in enumeration order |
| Simulator.LookupEntry | simulator/sim.js:97 | a package is found exactly when the schema has an entry of that name |
| Simulator.LookupMember | simulator/sim.js:102 | a service is found exactly when the package has a member of that name |
| Simulator.Resolve | simulator/sim.js:96-113 | package, then service, then method: a missing package gives "Package not found", a missing service or a non-object package "Service not found", and a missing method fails; the call is made exactly when all three resolve |
| Simulator.HelpIgnoresSchema | simulator/sim.js:64-68 | `--help` exits 0 whatever the schema |
| Simulator.ListBeforeMethodChecks | simulator/sim.js:79-82 | `--list` lists the services before any check on the method |
| Simulator.MalformedMethodFails | simulator/sim.js:84-95 | an empty method, or one with fewer than three segments, fails without looking at the schema |
| Simulator.SplitAfterFirst | simulator/sim.js:91 | splitting after a dot-free first segment gives that segment, then the split of the rest |
| Simulator.ThreeSegments | simulator/sim.js:91-96 | a path with three dot-free leading segments followed by a dot splits into them first |
| Simulator.ExactlyThreeSegments | simulator/sim.js:91-96 | a path of exactly three dot-free segments resolves its package, service and method from them |
| Simulator.LaterSegmentsIgnored | simulator/sim.js:91-96 | only the first three segments are resolved |
| Simulator.MissingMethodListsAvailable | simulator/sim.js:107-112 | a missing method fails and lists every method of the resolved service |
| GrpcProbe.WatchDeadline | test/vitest/__tests__/backend/grpc.integration.test.ts:25 | a watch window ends at most 300 ms from now and never past the deadline |
| GrpcProbe.WaitForGrpc | test/vitest/__tests__/backend/grpc.integration.test.ts:14-40 | the deadline is start plus timeout; the loop settles as the probe does; every armed window is capped |
| GrpcProbe.TrueOnlyIfReady | test/vitest/__tests__/backend/grpc.integration.test.ts:19-38 | true only if some check saw READY after rounds that all re-armed |
| GrpcProbe.ReadyIsFound | test/vitest/__tests__/backend/grpc.integration.test.ts:20-23 | READY at a check that was reached settles true |
| GrpcProbe.ErrorSettlesFalse | test/vitest/__tests__/backend/grpc.integration.test.ts:26-30 | a watch error settles false at once, whatever time is left |
| GrpcProbe.DeadlineSettlesFalse | test/vitest/__tests__/backend/grpc.integration.test.ts:31-35 | an error-free wake at or past the deadline settles false |
| GrpcProbe.SettlesAt | test/vitest/__tests__/backend/grpc.integration.test.ts:31-35 | after rounds that re-arm, the outcome is decided by the rounds that remain |
| GrpcProbe.Target | test/vitest/__tests__/backend/grpc.integration.test.ts:7 | a non-empty `GRPC_TARGET`, else `localhost:50051` |
| GrpcProbe.SetupSuite | test/vitest/__tests__/backend/grpc.integration.test.ts:42-58 | a client is made exactly when the service is defined and the probe returned true |
| GrpcProbe.ClientOnlyAfterReady | test/vitest/__tests__/backend/grpc.integration.test.ts:54-57 | a client exists only if some check saw READY |
| Store.EndpointsAreDistinct | src/stores/dnd5e.ts:29-54 | 24 distinct endpoints, including the aliased `classes`, `spells` and `monsters` |
| Store.RequestPathInjective | src/stores/dnd5e.ts:91 | distinct endpoints are requested at distinct paths |
| Store.Settled | src/stores/dnd5e.ts:90-97 | success stores the response, failure stores "Failed to load <key>" and keeps the data, and loading ends either way |
| Store.FetchOutcomes | src/stores/dnd5e.ts:86-98 | after `fetchList`, success has no error and the response as data; failure has the message and the old data |
| Store.RetryAfterFailure | src/stores/dnd5e.ts:86-98 | a later success clears an earlier failure; a later failure keeps earlier data |
| Store.Bucket.constructor | src/stores/dnd5e.ts:21-27 | a bucket starts not loading, with no error and no data |
| Store.Bucket.Begin | src/stores/dnd5e.ts:88-89 | loading, error cleared, data kept |
| Store.Bucket.Settle | src/stores/dnd5e.ts:90-97 | the bucket's state becomes the settled state |
| Store.CreateListsState | src/stores/dnd5e.ts:60-65 | a fresh initial bucket for exactly the given names, no two shared |
| Store.Dnd5eStore.constructor | src/stores/dnd5e.ts:67-70 | one fresh initial bucket per endpoint |
| Store.Dnd5eStore.Classes | src/stores/dnd5e.ts:74-76 | the getter is the `classes` bucket itself |
| Store.Dnd5eStore.Spells | src/stores/dnd5e.ts:77-79 | the getter is the `spells` bucket itself |
| Store.Dnd5eStore.Monsters | src/stores/dnd5e.ts:80-82 | the getter is the `monsters` bucket itself |
| Store.Dnd5eStore.FetchList | src/stores/dnd5e.ts:86-98 | requests `/<key>`, moves that bucket through the fetch, and changes no other bucket |
| Store.Dnd5eStore.FetchAll | src/stores/dnd5e.ts:100-104 | one request per endpoint, and each bucket ends as its own fetch leaves it |
| Store.OneRequestPerEndpoint | src/stores/dnd5e.ts:100-104 | each endpoint's path is requested exactly once |
| DataIntegrity.TrimStart | test/vitest/__tests__/api/data-integrity.test.ts:72 | a suffix, whose first character is not white space, after only white space |
| DataIntegrity.TrimEnd | test/vitest/__tests__/api/data-integrity.test.ts:72 | a prefix, whose last character is not white space, before only white space |
| DataIntegrity.TrimEmptyIffBlank | test/vitest/__tests__/api/data-integrity.test.ts:72 | a string trims to nothing exactly when it is all white space |
| DataIntegrity.UrlMatches | test/vitest/__tests__/api/data-integrity.test.ts:68-69 | a match is the endpoint's prefix followed by a non-empty `[a-z-]` tail |
| DataIntegrity.AllSlug | test/vitest/__tests__/api/data-integrity.test.ts:68 | true exactly when every character is in `[a-z-]` |
| DataIntegrity.BuiltUrlMatches | test/vitest/__tests__/api/data-integrity.test.ts:68-69 | every prefix plus a non-empty `[a-z-]` tail matches |
| DataIntegrity.ForeignTailRejected | test/vitest/__tests__/api/data-integrity.test.ts:68-69 | a tail with another character, or an empty tail, does not match |
| DataIntegrity.ValidateApiItem | test/vitest/__tests__/api/data-integrity.test.ts:59-75 | only objects are accepted |
| DataIntegrity.NonBlankIffChecks | test/vitest/__tests__/api/data-integrity.test.ts:63-72 | the empty-string and trim checks together mean non-blank |
| DataIntegrity.ValidateCharacterized | test/vitest/__tests__/api/data-integrity.test.ts:59-75 | accepted exactly when an object with non-blank string index and name and a matching url |
| DataIntegrity.NonObjectRejected | test/vitest/__tests__/api/data-integrity.test.ts:60 | anything that is not an object is rejected |
| DataIntegrity.MissingFieldRejected | test/vitest/__tests__/api/data-integrity.test.ts:63-65 | a missing, empty or non-string index, name or url is rejected |
| DataIntegrity.BlankFieldRejected | test/vitest/__tests__/api/data-integrity.test.ts:72 | a white-space-only index or name is rejected |
| DataIntegrity.WellFormedItemAccepted | test/vitest/__tests__/api/data-integrity.test.ts:74 | an item that passes every check is accepted |
| ServerMain.ParseArguments | back-end/src/main.cpp:22-40 | the loop equals the token-level decision from the default address |
| ServerMain.HelpIgnoresRest | back-end/src/main.cpp:31-38 | `--help` decides the run whatever follows it |
| ServerMain.TestModeIffFlag | back-end/src/main.cpp:29-30 | without `--help`, test mode is on exactly when some `--test` is seen |
| ServerMain.LastAddressWins | back-end/src/main.cpp:25-28 | the last `--address` that has a value wins |
| ServerMain.AddressUntouched | back-end/src/main.cpp:22-28 | without `--address`, the default `0.0.0.0:50051` stays |
| ServerMain.OtherIsSkipped | back-end/src/main.cpp:25-40 | unrecognised arguments are skipped |
| ServerMain.RunServer | back-end/src/main.cpp:20-78 | help and test mode exit 0 before any server is made; otherwise 0 exactly when every lifecycle step succeeds, else 1 with the failure's message ("Failed to initialize server", "Failed to start server", or "Server error: " and the exception's text) |

## Left out

- Network transport is an oracle. This covers the cURL handle, its options and the request itself (back-end/src/api_client.cpp:19-68 beyond the status rule and the write callback). `SetTimeout` only records the value.
- The gRPC server builder, options and reflection: back-end/src/server.cpp is not part of this model. The server is a `Lifecycle` oracle for `main`.
- JSON text parsing and `dump` are left out. Parsing is an oracle from text to an already-parsed value. `raw_data` holds that value, not its dumped text.
- JSON numbers are integers only. Floating-point members and the truncation `get<int>` applies to them are not modelled.
- The text of nlohmann exceptions is modelled only as far as the model builds it (`type_error` with its id).
- Relevance scores are integer tenths, not `float`. The tiers are exact, so no rounding is modelled.
- `std::sort` is not stable, so the model fixes no order among equal scores. `sort` and `resize` are modelled on values (`SortByScore`, `RankAndCut`), not in place.
- The `HealthCheck` timestamp is left out: it reads the clock.
- Signal handling and the global server pointer of back-end/src/main.cpp are left out. The help text is reduced to its last line, and the progress lines printed to the console are not modelled.
- The `int32` narrowing of `total_count` and `total_found` is not modelled when they are set. For `GetEndpoints` and `SearchItems` the values fit in an `int32` (24 endpoints, at most `max_results` hits).
- Json.GetInt: nlohmann's `get<int>` narrows a number to a C++ `int`, as `value("count", 0)` does at back-end/src/api_client.cpp:127. The model keeps the number unbounded, so an upstream `count` outside the `int32` range reaches `GetList`'s `total_count` unnarrowed; `Json.ValueInt`, `ApiClient.ParseListJson` and `Dnd5eService.Service.GetList` inherit this.
- `fetchAll` runs its fetches concurrently with `Promise.all`. It is modelled as sequential: each fetch touches only its own bucket.
- The axios instance, the UI pages, the router, the boot files, the client factory and the orchestration scripts are not part of this model.
- In the simulator, the schema is an ordered list of entries, standing in for `protoLoader.load`, `loadPackageDefinition` and JavaScript's key order.
  - Property lookups that reach `Object.prototype` (a method named `toString`, say) are not modelled.
  - A top-level entry that is not an object resolves no service.
  - `path.resolve`, the client, the RPC call and the printing of its response are not modelled.
- `validateApiItem` reads the endpoint literally. The source places it, unescaped, into a regular expression, which only matters for endpoints with regex metacharacters; the real endpoints have none.
- The live-API count and performance assertions of the data-integrity suite are not part of this model.
- GrpcProbe.WaitForGrpc: the probe runs on a finite trace of rounds and reports `None` when the trace ends before it settles.
  - That the real probe always settles is left out: it depends on grpc-js reporting a quiet slice as a watch error.
- SearchEngine.DataForStable: within one call the upstream answers each URL one way (`Upstream.transport` and `Source.fetch` are functions of the URL). So a miss fetched again in the same call, such as an endpoint named twice whose first fetch failed, cannot come out differently. The source sends a new request, which can succeed and then be cached. The cache lemmas and `Engine.Search` inherit this.
- SearchEngine.Engine.Search: the contract states that the answer is sorted, as long as the limit and the hits allow, and drawn from the hits of the searched endpoints. It does not state that it keeps the best hits of the whole pool; `SearchInEndpoint` states that per endpoint.
- Dnd5eService.Service.SearchItems: states the count, the order and the endpoints of the results, and the new cache; which hits they are follows from `Engine.Search` and is not restated.

## Findings

| source | as written | input that shows it | evidently intended | confidence | as-written member | corrected member |
|---|---|---|---|---|---|---|
| back-end/src/dnd5e_service.cpp:59-70 | `start_idx = page * page_size` has no lower bound, and the loop reads `results[i]` from `start_idx` | page -1, page size 10, 5 results: the loop runs over indices -10 to -1, before the start of the vector | a negative start serves nothing before the first result | not executed | Dnd5eService.NegativePageReadsBeforeResults | Dnd5eService.PageItems |
| back-end/src/dnd5e_service.cpp:59-61 | `page * page_size` is computed in 32-bit `int` and can wrap | page 65536, page size 65536, 5 results: the product wraps to 0 and the first page is served | a page past the end serves no items | not executed; signed overflow is undefined behaviour in C++, so the wrap is the usual outcome, not a guaranteed one | Dnd5eService.WrappedProductServesFirstPage | Dnd5eService.PagesTile |

`Service.GetList` uses the corrected window, `PageItems`, on unbounded
integers. `PagesTile` and `HasMoreIffResultsBeyond` are proved about that
window.
