/** The back end's search engine (back-end/src/search_engine.cpp):
    case-insensitive substring matching over the `name` and `index` of the
    upstream items, tiered relevance scores, ranking and truncation, and a
    per-endpoint cache of item lists. Scores are integer tenths: 10 stands
    for the source's 1.0f. */
module SearchEngine {
  import opened Wrappers
  import opened ApiClient
  import Text

  /** One hit: the item, the field that matched ("name" or "index"), its
      score in tenths and the endpoint it came from. The .cpp file calls this
      `SearchHit`, the header `SearchResult`; it is one type. */
  datatype SearchHit = SearchHit(item: ApiItem, matchedField: string, score: int, endpoint: string)

  /** `cached_data_`: endpoint name to the items of its list. */
  type Cache = map<string, seq<ApiItem>>

  /** Where item lists come from: `GetList` of one endpoint. */
  datatype Source = Source(fetch: string -> Result<ApiResponse, ApiError>)

  /** The source a client with this base URL and whitelist gives over `up`. */
  function ListSource(baseUrl: string, valid: seq<string>, up: Upstream): Source
  {
    Source(e => FetchList(baseUrl, valid, e, up))
  }

  /** The source fetches an endpoint exactly as the client's `GetList` does. */
  lemma ListSourceFetches(baseUrl: string, valid: seq<string>, up: Upstream, e: string)
    ensures Fetched(ListSource(baseUrl, valid, up), e) == FetchList(baseUrl, valid, e, up)
  {
  }

  /** The `what()` of the `std::length_error` that `vector::resize` throws
      when handed a negative `int` (libstdc++'s text). */
  const LengthErrorWhat: string := "vector::_M_default_append"

  const MaxScore: int := 10

  /** `pat` occurs somewhere in `text`. */
  ghost predicate Contains(text: string, pat: string)
  {
    exists i: nat :: Text.OccursAt(text, pat, i)
  }

  /** `ContainsQuery`: false when either string is empty, otherwise a
      substring test on the ASCII-lowercased strings. */
  function ContainsQuery(text: string, query: string): (r: bool)
    ensures r <==> text != "" && query != "" && Contains(Text.Lower(text), Text.Lower(query))
  {
    text != "" && query != "" && Text.Find(Text.Lower(text), Text.Lower(query)).Some?
  }

  /** Letter case never changes whether a query matches. */
  lemma ContainsQueryIgnoresCase(text: string, query: string, text': string, query': string)
    requires Text.Lower(text) == Text.Lower(text') && Text.Lower(query) == Text.Lower(query')
    ensures ContainsQuery(text, query) == ContainsQuery(text', query')
  {
  }

  /** The base tier of `CalculateRelevanceScore`, checked in this order:
      exact (case-sensitive) equality, `find(query) == 0`, `ContainsQuery`. */
  function MatchTier(item: ApiItem, query: string): int
  {
    if item.name == query || item.index == query then 10
    else if Text.Find(item.name, query) == Some(0) || Text.Find(item.index, query) == Some(0) then 8
    else if ContainsQuery(item.name, query) || ContainsQuery(item.index, query) then 6
    else 0
  }

  /** The boost for the field that matched. */
  function FieldBoost(matchedField: string): int
  {
    if matchedField == "name" then 2 else if matchedField == "index" then 1 else 0
  }

  /** `CalculateRelevanceScore`, capped at 10: exact 10, prefix 8, contains 6,
      plus 2 for a name match or 1 for an index match. */
  function RelevanceScore(item: ApiItem, query: string, matchedField: string): (r: int)
    ensures 0 <= r <= MaxScore
    ensures item.name == query || item.index == query ==> r == MaxScore
    ensures item.name != query && item.index != query && (query <= item.name || query <= item.index) ==>
              r == 8 + FieldBoost(matchedField)
    ensures !(query <= item.name || query <= item.index) &&
            (ContainsQuery(item.name, query) || ContainsQuery(item.index, query)) ==>
              r == 6 + FieldBoost(matchedField)
    ensures !(query <= item.name || query <= item.index) &&
            !(ContainsQuery(item.name, query) || ContainsQuery(item.index, query)) ==>
              r == FieldBoost(matchedField)
  {
    Text.FindZeroIsPrefix(item.name, query);
    Text.FindZeroIsPrefix(item.index, query);
    var score := MatchTier(item, query) + FieldBoost(matchedField);
    if score > MaxScore then MaxScore else score
  }

  /** `SearchInItem`: a hit exactly when the name or the index contains the
      query; the name is preferred as the matched field. */
  function SearchInItem(item: ApiItem, query: string, endpoint: string): (r: Option<SearchHit>)
    ensures r.Some? <==> ContainsQuery(item.name, query) || ContainsQuery(item.index, query)
    ensures r.Some? ==> r.value.item == item && r.value.endpoint == endpoint
    ensures r.Some? ==> r.value.matchedField == if ContainsQuery(item.name, query) then "name" else "index"
    ensures r.Some? ==> r.value.score == RelevanceScore(item, query, r.value.matchedField)
    ensures r.Some? ==> 7 <= r.value.score <= MaxScore
  {
    var field :=
      if ContainsQuery(item.name, query) then "name"
      else if ContainsQuery(item.index, query) then "index"
      else "";
    if field == "" then None
    else
      Text.FindZeroIsPrefix(item.name, query);
      Text.FindZeroIsPrefix(item.index, query);
      Some(SearchHit(item, field, RelevanceScore(item, query, field), endpoint))
  }

  /** An exact match outranks, or ties with, every other hit. */
  lemma ExactMatchRanksFirst(a: ApiItem, b: ApiItem, query: string, endpoint: string)
    requires a.name == query || a.index == query
    requires SearchInItem(a, query, endpoint).Some? && SearchInItem(b, query, endpoint).Some?
    ensures SearchInItem(a, query, endpoint).value.score >= SearchInItem(b, query, endpoint).value.score
  {
  }

  /** An empty query never matches, so it yields no hit. */
  lemma EmptyQueryNoHit(item: ApiItem, endpoint: string)
    ensures SearchInItem(item, "", endpoint) == None
  {
  }

  /** The hits of a list of items, in item order. */
  function Hits(items: seq<ApiItem>, query: string, endpoint: string): (r: seq<SearchHit>)
    ensures |r| <= |items|
  {
    if |items| == 0 then []
    else
      var n := |items| - 1;
      var init := Hits(items[..n], query, endpoint);
      match SearchInItem(items[n], query, endpoint)
      case None => init
      case Some(h) => init + [h]
  }

  /** Every hit is the hit of one of the items, and every item that matches
      contributes its hit. */
  lemma HitsSoundComplete(items: seq<ApiItem>, query: string, endpoint: string)
    ensures forall h :: h in Hits(items, query, endpoint) ==>
              h.endpoint == endpoint && exists i :: 0 <= i < |items| && SearchInItem(items[i], query, endpoint) == Some(h)
    ensures forall i :: 0 <= i < |items| && SearchInItem(items[i], query, endpoint).Some? ==>
              SearchInItem(items[i], query, endpoint).value in Hits(items, query, endpoint)
  {
    forall h | h in Hits(items, query, endpoint)
      ensures h.endpoint == endpoint && exists i :: 0 <= i < |items| && SearchInItem(items[i], query, endpoint) == Some(h)
    {
      HitsSound(items, query, endpoint, h);
    }
    forall i | 0 <= i < |items| && SearchInItem(items[i], query, endpoint).Some?
      ensures SearchInItem(items[i], query, endpoint).value in Hits(items, query, endpoint)
    {
      HitsComplete(items, query, endpoint, i, SearchInItem(items[i], query, endpoint).value);
    }
  }

  /** A hit in the list is the hit of some item of this endpoint. */
  lemma {:induction false} HitsSound(items: seq<ApiItem>, query: string, endpoint: string, h: SearchHit)
    requires h in Hits(items, query, endpoint)
    ensures h.endpoint == endpoint
    ensures exists i :: 0 <= i < |items| && SearchInItem(items[i], query, endpoint) == Some(h)
  {
    var n := |items| - 1;
    var init := Hits(items[..n], query, endpoint);
    if h in init {
      HitsSound(items[..n], query, endpoint, h);
      var i :| 0 <= i < n && SearchInItem(items[..n][i], query, endpoint) == Some(h);
      assert items[..n][i] == items[i];
    } else {
      assert SearchInItem(items[n], query, endpoint) == Some(h);
    }
  }

  /** The hit of a matching item is in the list. */
  lemma {:induction false} HitsComplete(items: seq<ApiItem>, query: string, endpoint: string, i: nat, h: SearchHit)
    requires i < |items| && SearchInItem(items[i], query, endpoint) == Some(h)
    ensures h in Hits(items, query, endpoint)
  {
    var n := |items| - 1;
    var init := Hits(items[..n], query, endpoint);
    var o := SearchInItem(items[n], query, endpoint);
    var tail := if o.Some? then [o.value] else [];
    HitsLast(items, query, endpoint);
    assert Hits(items, query, endpoint) == init + tail;
    if i < n {
      assert items[..n][i] == items[i];
      HitsComplete(items[..n], query, endpoint, i, h);
      assert h in init;
    } else {
      assert i == n;
      assert o == Some(h);
    }
  }

  /** The hits of a non-empty list: those of all but the last item, then the last one's. */
  lemma HitsLast(items: seq<ApiItem>, query: string, endpoint: string)
    requires |items| > 0
    ensures var o := SearchInItem(items[|items| - 1], query, endpoint);
            Hits(items, query, endpoint) == Hits(items[..|items| - 1], query, endpoint) + (if o.Some? then [o.value] else [])
  {
  }

  /** Scanning one more item appends its hit, if it has one. */
  lemma HitsSnoc(items: seq<ApiItem>, i: nat, query: string, endpoint: string)
    requires i < |items|
    ensures Hits(items[..i + 1], query, endpoint) ==
      Hits(items[..i], query, endpoint) +
      (match SearchInItem(items[i], query, endpoint) case None => [] case Some(h) => [h])
  {
    assert items[..i + 1][..i] == items[..i];
  }

  /** Non-increasing scores. */
  predicate SortedByScore(s: seq<SearchHit>)
  {
    forall i, j :: 0 <= i < j < |s| ==> s[i].score >= s[j].score
  }

  function InsertByScore(h: SearchHit, s: seq<SearchHit>): (r: seq<SearchHit>)
    requires SortedByScore(s)
    ensures SortedByScore(r)
    ensures multiset(r) == multiset(s) + multiset{h}
    ensures r[0] == h || (|s| > 0 && r[0] == s[0])
  {
    if |s| == 0 then [h]
    else
      SortedSplit(s);
      if h.score >= s[0].score then
        SortedCons(h, s);
        [h] + s
      else
        var t := InsertByScore(h, s[1..]);
        assert t[0].score <= s[0].score;
        SortedCons(s[0], t);
        [s[0]] + t
  }

  /** A sorted list is its head, no lower than the next hit, then a sorted tail. */
  lemma SortedSplit(s: seq<SearchHit>)
    requires SortedByScore(s) && |s| > 0
    ensures s == [s[0]] + s[1..]
    ensures |s| > 1 ==> s[1].score <= s[0].score
    ensures SortedByScore(s[1..])
  {
    var t := s[1..];
    forall i, j | 0 <= i < j < |t|
      ensures t[i].score >= t[j].score
    {
      assert t[i] == s[i + 1] && t[j] == s[j + 1];
    }
  }

  /** A hit no lower than the head of a sorted list can go in front of it. */
  lemma SortedCons(x: SearchHit, t: seq<SearchHit>)
    requires SortedByScore(t)
    requires |t| > 0 ==> t[0].score <= x.score
    ensures SortedByScore([x] + t)
  {
    var r := [x] + t;
    forall i, j | 0 <= i < j < |r|
      ensures r[i].score >= r[j].score
    {
      assert r[j] == t[j - 1];
      if i > 0 {
        assert r[i] == t[i - 1];
      }
    }
  }

  /** The ordering `std::sort` gives with a "greater score first" comparator:
      non-increasing scores and the same hits. Ties may come in any order,
      and nothing here depends on which. */
  function SortByScore(s: seq<SearchHit>): (r: seq<SearchHit>)
    ensures SortedByScore(r)
    ensures multiset(r) == multiset(s)
  {
    if |s| == 0 then []
    else
      assert s == [s[0]] + s[1..];
      InsertByScore(s[0], SortByScore(s[1..]))
  }

  /** `if (size > max) resize(max)` for a non-negative `max`. */
  function Take(s: seq<SearchHit>, k: nat): (r: seq<SearchHit>)
  {
    if |s| > k then s[..k] else s
  }

  function Min(a: int, b: int): int
  {
    if a <= b then a else b
  }

  /** `r` is a best-first selection of `k` hits from `pool`: sorted, as long as
      `k` allows, drawn from the pool, and no hit left out scores higher
      than one kept. */
  predicate IsTopK(r: seq<SearchHit>, pool: seq<SearchHit>, k: nat)
  {
    && SortedByScore(r)
    && |r| == Min(k, |pool|)
    && multiset(r) <= multiset(pool)
    && KeepsBest(r, pool)
  }

  /** No hit of `pool` that `r` leaves out scores higher than a hit in `r`:
      a pool hit that outscores some kept hit is kept, every copy of it. */
  predicate KeepsBest(r: seq<SearchHit>, pool: seq<SearchHit>)
  {
    forall i, j :: 0 <= i < |pool| && 0 <= j < |r| && pool[i].score > r[j].score ==>
      multiset(r)[pool[i]] == multiset(pool)[pool[i]]
  }

  /** In a sorted sequence nothing after position `m` outscores anything before it. */
  lemma SortedPrefixDominates(s: seq<SearchHit>, m: nat)
    requires SortedByScore(s) && m <= |s|
    ensures forall x, y :: x in s[m..] && y in s[..m] ==> x.score <= y.score
  {
    forall x, y | x in s[m..] && y in s[..m]
      ensures x.score <= y.score
    {
      var j :| 0 <= j < |s[m..]| && s[m..][j] == x;
      var i :| 0 <= i < m && s[..m][i] == y;
      assert s[i] == y && s[m + j] == x;
    }
  }

  /** Keeping a prefix of a sorted permutation of the pool keeps the best. */
  lemma SortedPrefixKeepsBest(s: seq<SearchHit>, pool: seq<SearchHit>, m: nat)
    requires SortedByScore(s) && multiset(s) == multiset(pool) && m <= |s|
    ensures KeepsBest(s[..m], pool)
  {
    assert s == s[..m] + s[m..];
    assert multiset(s) == multiset(s[..m]) + multiset(s[m..]);
    SortedPrefixDominates(s, m);
    forall i, j | 0 <= i < |pool| && 0 <= j < |s[..m]| && pool[i].score > s[..m][j].score
      ensures multiset(s[..m])[pool[i]] == multiset(pool)[pool[i]]
    {
      assert s[..m][j] in s[..m];
      assert pool[i] !in s[m..];
    }
  }

  /** Truncating a sorted permutation of the pool selects the best `k`. */
  lemma TakeOfSortedIsTopK(s: seq<SearchHit>, pool: seq<SearchHit>, k: nat)
    requires SortedByScore(s) && multiset(s) == multiset(pool)
    ensures IsTopK(Take(s, k), pool, k)
  {
    var m := if |s| > k then k else |s|;
    var r := s[..m];
    assert Take(s, k) == r;
    assert SortedByScore(r) by {
      forall i, j | 0 <= i < j < |r| ensures r[i].score >= r[j].score {
        assert r[i] == s[i] && r[j] == s[j];
      }
    }
    assert |r| == Min(k, |pool|) by {
      assert |multiset(s)| == |multiset(pool)|;
    }
    assert multiset(r) <= multiset(pool) by {
      assert s == r + s[m..];
      assert multiset(s) == multiset(r) + multiset(s[m..]);
    }
    SortedPrefixKeepsBest(s, pool, m);
  }

  /** The ranking step both searches end with: `std::sort` best first, then
      `if (size > max) resize(max)`. A negative `max` always fails the size test
      and `resize` throws `std::length_error`. */
  function RankAndCut(hits: seq<SearchHit>, max: int): (r: Result<seq<SearchHit>, string>)
    ensures r.Ok? <==> max >= 0
    ensures r.Err? ==> r.error == LengthErrorWhat
    ensures r.Ok? ==> IsTopK(r.value, hits, max)
  {
    var sorted := SortByScore(hits);
    if |sorted| > max then
      if max < 0 then Err(LengthErrorWhat)
      else
        TakeOfSortedIsTopK(sorted, hits, max);
        Ok(sorted[..max])
    else
      TakeOfSortedIsTopK(sorted, hits, max);
      Ok(sorted)
  }

  /** What `GetList` yields for an endpoint. */
  function Fetched(src: Source, endpoint: string): Result<ApiResponse, ApiError>
  {
    src.fetch(endpoint)
  }

  /** The items `GetEndpointData` returns: the cached list on a hit, the
      fetched results on a miss, nothing when the fetch fails. */
  function DataFor(c: Cache, src: Source, endpoint: string): seq<ApiItem>
  {
    if endpoint in c then c[endpoint]
    else if Fetched(src, endpoint).Ok? then Fetched(src, endpoint).value.results
    else []
  }

  /** The cache after `GetEndpointData`: a miss that fetches stores the results. */
  function Fill(c: Cache, src: Source, endpoint: string): Cache
  {
    if endpoint in c then c
    else if Fetched(src, endpoint).Ok? then c[endpoint := Fetched(src, endpoint).value.results]
    else c
  }

  /** The cache after `GetEndpointData` on each endpoint in turn. */
  function FillAll(c: Cache, src: Source, endpoints: seq<string>): Cache
  {
    if |endpoints| == 0 then c
    else Fill(FillAll(c, src, endpoints[..|endpoints| - 1]), src, endpoints[|endpoints| - 1])
  }

  lemma FillAllSnoc(c: Cache, src: Source, endpoints: seq<string>, i: nat)
    requires i < |endpoints|
    ensures FillAll(c, src, endpoints[..i + 1]) == Fill(FillAll(c, src, endpoints[..i]), src, endpoints[i])
  {
    assert endpoints[..i + 1][..i] == endpoints[..i];
  }

  /** The cache after `PreloadData`: every endpoint that loads overwrites its entry. */
  function PreloadAll(c: Cache, src: Source, endpoints: seq<string>): Cache
  {
    if |endpoints| == 0 then c
    else
      var before := PreloadAll(c, src, endpoints[..|endpoints| - 1]);
      var e := endpoints[|endpoints| - 1];
      if Fetched(src, e).Ok? then before[e := Fetched(src, e).value.results] else before
  }

  /** The lists of the endpoints among `endpoints` that load. */
  function Loaded(src: Source, endpoints: seq<string>): Cache
  {
    map e | e in endpoints && Fetched(src, e).Ok? :: Fetched(src, e).value.results
  }

  /** Loading one more endpoint adds its list when it loads. */
  lemma LoadedSnoc(src: Source, init: seq<string>, e: string)
    ensures Loaded(src, init + [e]) ==
      if Fetched(src, e).Ok? then Loaded(src, init)[e := Fetched(src, e).value.results] else Loaded(src, init)
  {
    var lhs := Loaded(src, init + [e]);
    var rhs := if Fetched(src, e).Ok? then Loaded(src, init)[e := Fetched(src, e).value.results] else Loaded(src, init);
    forall x
      ensures x in lhs <==> x in rhs
    {
      assert x in init + [e] <==> x in init || x == e;
    }
    assert lhs == rhs;
  }

  /** Filling never replaces an entry: the cache gains the lists of the
      endpoints that were missing and load, and keeps everything else. */
  lemma {:induction false} FillAllAddsOnlyMisses(c: Cache, src: Source, endpoints: seq<string>)
    ensures FillAll(c, src, endpoints) == Loaded(src, endpoints) + c
  {
    if |endpoints| > 0 {
      var n := |endpoints| - 1;
      var init := endpoints[..n];
      var e := endpoints[n];
      FillAllAddsOnlyMisses(c, src, init);
      assert endpoints == init + [e];
      LoadedSnoc(src, init, e);
      var before := Loaded(src, init) + c;
      if e in before || !Fetched(src, e).Ok? {
        assert Loaded(src, endpoints) + c == before;
      } else {
        assert Loaded(src, endpoints) + c == before[e := Fetched(src, e).value.results];
      }
    } else {
      assert Loaded(src, endpoints) == map[];
      assert map[] + c == c;
    }
  }

  /** Preloading overwrites the entry of every endpoint that loads and leaves
      the others, including those whose fetch fails, as they were. */
  lemma {:induction false} PreloadOverwrites(c: Cache, src: Source, endpoints: seq<string>)
    ensures PreloadAll(c, src, endpoints) == c + Loaded(src, endpoints)
  {
    if |endpoints| > 0 {
      var n := |endpoints| - 1;
      var init := endpoints[..n];
      var e := endpoints[n];
      PreloadOverwrites(c, src, init);
      assert endpoints == init + [e];
      LoadedSnoc(src, init, e);
      if Fetched(src, e).Ok? {
        assert c + Loaded(src, endpoints) == (c + Loaded(src, init))[e := Fetched(src, e).value.results];
      }
    } else {
      assert Loaded(src, endpoints) == map[];
      assert c + map[] == c;
    }
  }

  /** What an endpoint yields does not change as the cache fills. */
  lemma {:induction false} DataForStable(c: Cache, src: Source, endpoints: seq<string>, e: string)
    ensures DataFor(FillAll(c, src, endpoints), src, e) == DataFor(c, src, e)
  {
    if |endpoints| > 0 {
      DataForStable(c, src, endpoints[..|endpoints| - 1], e);
    }
  }

  /** The hits of every searched endpoint, before any truncation. */
  function AllHits(c: Cache, src: Source, endpoints: seq<string>, query: string): seq<SearchHit>
  {
    if |endpoints| == 0 then []
    else
      var n := |endpoints| - 1;
      AllHits(c, src, endpoints[..n], query) + Hits(DataFor(c, src, endpoints[n]), query, endpoints[n])
  }

  /** Every hit of a search carries one of the searched endpoints. */
  lemma {:induction false} AllHitsEndpoints(c: Cache, src: Source, endpoints: seq<string>, query: string)
    ensures forall h :: h in AllHits(c, src, endpoints, query) ==> h.endpoint in endpoints
  {
    if |endpoints| > 0 {
      var n := |endpoints| - 1;
      AllHitsEndpoints(c, src, endpoints[..n], query);
      HitsSoundComplete(DataFor(c, src, endpoints[n]), query, endpoints[n]);
      forall h | h in AllHits(c, src, endpoints, query)
        ensures h.endpoint in endpoints
      {
        if h in AllHits(c, src, endpoints[..n], query) {
          assert h.endpoint in endpoints[..n];
        } else {
        }
      }
    }
  }

  /** Merging per-endpoint selections keeps the count: if each part holds the
      first min(k, its pool) hits, the merge holds at least min(k, total). */
  lemma MergeCount(k: nat, merged: nat, pooled: nat, part: nat, pool: nat)
    requires Min(k, merged) == Min(k, pooled)
    requires part == Min(k, pool)
    ensures Min(k, merged + part) == Min(k, pooled + pool)
  {
  }

  lemma AllHitsSnoc(c: Cache, src: Source, endpoints: seq<string>, i: nat, query: string)
    requires i < |endpoints|
    ensures AllHits(c, src, endpoints[..i + 1], query) ==
      AllHits(c, src, endpoints[..i], query) + Hits(DataFor(c, src, endpoints[i]), query, endpoints[i])
  {
    assert endpoints[..i + 1][..i] == endpoints[..i];
  }

  /** The merged selections are drawn from the pooled hits and, for a
      non-negative limit, as numerous as the limit allows. */
  predicate DrawnFrom(merged: seq<SearchHit>, pooled: seq<SearchHit>, k: int)
  {
    multiset(merged) <= multiset(pooled) && (k >= 0 ==> Min(k, |merged|) == Min(k, |pooled|))
  }

  /** Appending one endpoint's selection to the merge keeps it drawn from the
      pooled hits and keeps its count in step with the pool's. */
  lemma MergeStep(merged: seq<SearchHit>, pooled: seq<SearchHit>, part: seq<SearchHit>, pool: seq<SearchHit>, k: nat)
    requires DrawnFrom(merged, pooled, k)
    requires IsTopK(part, pool, k)
    ensures DrawnFrom(merged + part, pooled + pool, k)
  {
    assert multiset(pooled + pool) == multiset(pooled) + multiset(pool);
    assert multiset(merged + part) == multiset(merged) + multiset(part);
    MergeCount(k, |merged|, |pooled|, |part|, |pool|);
  }

  /** The final answer: best first, as many as the limit and the pool allow,
      drawn from the pool, every hit from a searched endpoint. */
  predicate RankedFrom(r: seq<SearchHit>, pool: seq<SearchHit>, k: int, endpoints: seq<string>)
  {
    && SortedByScore(r)
    && |r| == Min(k, |pool|)
    && multiset(r) <= multiset(pool)
    && forall h :: h in r ==> h.endpoint in endpoints
  }

  /** Ranking the merged selections gives a sorted list as long as the pool
      allows, drawn from it, whose hits all come from searched endpoints. */
  lemma RankedMerge(c: Cache, src: Source, endpoints: seq<string>, query: string,
                    merged: seq<SearchHit>, k: nat)
    requires DrawnFrom(merged, AllHits(c, src, endpoints, query), k)
    ensures RankedFrom(RankAndCut(merged, k).value, AllHits(c, src, endpoints, query), k, endpoints)
  {
    var r := RankAndCut(merged, k).value;
    var pool := AllHits(c, src, endpoints, query);
    AllHitsEndpoints(c, src, endpoints, query);
    assert multiset(r) <= multiset(pool);
    forall h | h in r
      ensures h.endpoint in endpoints
    {
      assert h in multiset(r);
      assert h in multiset(pool);
    }
  }

  /** `SearchEngine`: the client it fetches through and its cache. */
  class Engine {
    const api: Client
    var cache: Cache

    constructor (api: Client)
      ensures this.api == api && cache == map[]
    {
      this.api := api;
      cache := map[];
    }

    /** `GetEndpointData`: a cached list without fetching; on a miss the fetched
        results, which are also stored; on a failed fetch nothing, and the cache
        is left as it was. */
    method GetEndpointData(endpoint: string, up: Upstream) returns (items: seq<ApiItem>)
      modifies this
      ensures var src := ListSource(api.baseUrl, api.validEndpoints, up);
              items == DataFor(old(cache), src, endpoint) && cache == Fill(old(cache), src, endpoint)
      ensures endpoint in old(cache) ==> items == old(cache)[endpoint] && cache == old(cache)
    {
      if endpoint in cache {
        return cache[endpoint];
      }
      var response := api.GetList(endpoint, up);
      ListSourceFetches(api.baseUrl, api.validEndpoints, up, endpoint);
      if response.Ok? {
        cache := cache[endpoint := response.value.results];
        items := response.value.results;
      } else {
        items := [];
      }
    }

    /** `SearchInEndpoint`: the best `maxResults` hits of the endpoint's items,
        best first. A negative `maxResults` makes `resize` throw, after the
        endpoint's data has been read. */
    method SearchInEndpoint(query: string, endpoint: string, maxResults: int, up: Upstream)
      returns (r: Result<seq<SearchHit>, string>)
      modifies this
      ensures var src := ListSource(api.baseUrl, api.validEndpoints, up);
              cache == Fill(old(cache), src, endpoint)
      ensures r.Ok? <==> maxResults >= 0
      ensures r.Err? ==> r.error == LengthErrorWhat
      ensures var src := ListSource(api.baseUrl, api.validEndpoints, up);
              r.Ok? ==> IsTopK(r.value, Hits(DataFor(old(cache), src, endpoint), query, endpoint), maxResults)
    {
      ghost var pool := Hits(DataFor(cache, ListSource(api.baseUrl, api.validEndpoints, up), endpoint), query, endpoint);
      var items := GetEndpointData(endpoint, up);
      ghost var filled := cache;
      var results: seq<SearchHit> := [];
      var i := 0;
      while i < |items|
        invariant 0 <= i <= |items|
        invariant cache == filled
        invariant results == Hits(items[..i], query, endpoint)
      {
        var hit := SearchInItem(items[i], query, endpoint);
        HitsSnoc(items, i, query, endpoint);
        if hit.Some? {
          results := results + [hit.value];
        }
        i := i + 1;
      }
      assert items[..i] == items;
      assert results == pool;
      r := RankAndCut(results, maxResults);
    }

    /** The loop of `Search`: each endpoint's selection appended in turn. A
        negative `maxResults` throws at the first endpoint. */
    method CollectHits(query: string, searched: seq<string>, maxResults: int, up: Upstream)
      returns (r: Result<seq<SearchHit>, string>)
      modifies this
      ensures var src := ListSource(api.baseUrl, api.validEndpoints, up);
              r.Ok? ==> cache == FillAll(old(cache), src, searched)
      ensures r.Ok? <==> maxResults >= 0 || searched == []
      ensures r.Err? ==> r.error == LengthErrorWhat
      ensures var src := ListSource(api.baseUrl, api.validEndpoints, up);
              r.Err? ==> searched != [] && cache == Fill(old(cache), src, searched[0])
      ensures var src := ListSource(api.baseUrl, api.validEndpoints, up);
              r.Ok? ==> DrawnFrom(r.value, AllHits(old(cache), src, searched, query), maxResults)
    {
      ghost var src := ListSource(api.baseUrl, api.validEndpoints, up);
      ghost var c0 := cache;
      var all: seq<SearchHit> := [];
      ghost var pooled: seq<SearchHit> := [];
      var i := 0;
      while i < |searched|
        invariant 0 <= i <= |searched|
        invariant src == ListSource(api.baseUrl, api.validEndpoints, up)
        invariant cache == FillAll(c0, src, searched[..i])
        invariant pooled == AllHits(c0, src, searched[..i], query)
        invariant i > 0 ==> maxResults >= 0
        invariant DrawnFrom(all, pooled, maxResults)
      {
        FillAllSnoc(c0, src, searched, i);
        AllHitsSnoc(c0, src, searched, i, query);
        DataForStable(c0, src, searched[..i], searched[i]);
        ghost var pool := Hits(DataFor(c0, src, searched[i]), query, searched[i]);
        ghost var before := cache;
        var part := SearchInEndpoint(query, searched[i], maxResults, up);
        if part.Err? {
          assert i == 0 && searched[..i] == [];
          return Err(part.error);
        }
        MergeStep(all, pooled, part.value, pool, maxResults);
        all := all + part.value;
        pooled := pooled + pool;
        i := i + 1;
      }
      assert searched[..i] == searched;
      r := Ok(all);
    }

    /** `Search`: every endpoint when none is named; the per-endpoint
        selections merged, ranked best first and cut to `maxResults`. */
    method Search(query: string, endpoints: seq<string>, maxResults: int, up: Upstream)
      returns (r: Result<seq<SearchHit>, string>)
      modifies this
      ensures var src := ListSource(api.baseUrl, api.validEndpoints, up);
              var searched := if endpoints == [] then api.validEndpoints else endpoints;
              r.Ok? ==> cache == FillAll(old(cache), src, searched)
      ensures r.Ok? <==> maxResults >= 0
      ensures r.Err? ==> r.error == LengthErrorWhat
      ensures var src := ListSource(api.baseUrl, api.validEndpoints, up);
              var searched := if endpoints == [] then api.validEndpoints else endpoints;
              r.Err? ==> cache == if searched == [] then old(cache) else Fill(old(cache), src, searched[0])
      ensures var src := ListSource(api.baseUrl, api.validEndpoints, up);
              var searched := if endpoints == [] then api.validEndpoints else endpoints;
              r.Ok? ==> RankedFrom(r.value, AllHits(old(cache), src, searched, query), maxResults, searched)
    {
      ghost var src := ListSource(api.baseUrl, api.validEndpoints, up);
      ghost var c0 := cache;
      var searched := endpoints;
      if |searched| == 0 {
        searched := api.GetEndpoints();
      }
      var all := CollectHits(query, searched, maxResults, up);
      if all.Err? {
        return Err(all.error);
      }
      r := RankAndCut(all.value, maxResults);
      if maxResults >= 0 {
        RankedMerge(c0, src, searched, query, all.value, maxResults);
      }
    }

    /** `PreloadData`: every endpoint when none is named; each one that loads
        overwrites its entry, failures are skipped. */
    method PreloadData(endpoints: seq<string>, up: Upstream)
      modifies this
      ensures var src := ListSource(api.baseUrl, api.validEndpoints, up);
              var loaded := if endpoints == [] then api.validEndpoints else endpoints;
              cache == PreloadAll(old(cache), src, loaded)
    {
      ghost var src := ListSource(api.baseUrl, api.validEndpoints, up);
      ghost var c0 := cache;
      var loaded := endpoints;
      if |loaded| == 0 {
        loaded := api.GetEndpoints();
      }
      var i := 0;
      while i < |loaded|
        invariant 0 <= i <= |loaded|
        invariant cache == PreloadAll(c0, src, loaded[..i])
      {
        var prefix := loaded[..i + 1];
        assert prefix[..i] == loaded[..i];
        var response := api.GetList(loaded[i], up);
        ListSourceFetches(api.baseUrl, api.validEndpoints, up, loaded[i]);
        if response.Ok? {
          cache := cache[loaded[i] := response.value.results];
        }
        i := i + 1;
      }
      assert loaded[..i] == loaded;
    }

    /** `ClearCache`. */
    method ClearCache()
      modifies this
      ensures cache == map[]
    {
      cache := map[];
    }

    /** `GetCacheStats`: each cached endpoint with the number of its items. */
    method GetCacheStats() returns (stats: map<string, nat>)
      ensures stats.Keys == cache.Keys
      ensures forall e :: e in stats ==> stats[e] == |cache[e]|
    {
      stats := map[];
      var pending := cache.Keys;
      while pending != {}
        invariant pending <= cache.Keys
        invariant stats.Keys == cache.Keys - pending
        invariant forall e :: e in stats ==> stats[e] == |cache[e]|
        decreases pending
      {
        var e :| e in pending;
        stats := stats[e := |cache[e]|];
        pending := pending - {e};
      }
    }
  }
}
