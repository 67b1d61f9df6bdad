/** The front-end store of list endpoints (src/stores/dnd5e.ts): one fetch
    state per endpoint, moved through loading and then success or failure by
    `fetchList`. The HTTP client is an oracle from request path to response. */
module Store {
  import opened Wrappers

  /** One entry of a list response. */
  datatype IndexItem = IndexItem(index: string, name: string, url: string)

  /** A list response: count and entries. */
  datatype ListData = ListData(count: int, results: seq<IndexItem>)

  /** A bucket's observable state. */
  datatype FetchState = FetchState(loading: bool, error: Option<string>, data: Option<ListData>)

  const Initial: FetchState := FetchState(false, None, None)

  /** The 24 list endpoints the store keeps a bucket for, in order. */
  const AllListEndpoints: seq<string> := [
    "ability-scores", "alignments", "backgrounds", "classes", "conditions", "damage-types",
    "equipment", "equipment-categories", "feats", "features", "languages", "magic-items",
    "magic-schools", "monsters", "proficiencies", "races", "rule-sections", "rules",
    "skills", "spells", "subclasses", "subraces", "traits", "weapon-properties"]

  /** The endpoint list has 24 distinct entries and names the three aliased ones. */
  lemma EndpointsAreDistinct()
    ensures |AllListEndpoints| == 24
    ensures forall i, j :: 0 <= i < j < |AllListEndpoints| ==> AllListEndpoints[i] != AllListEndpoints[j]
    ensures "classes" in AllListEndpoints && "spells" in AllListEndpoints && "monsters" in AllListEndpoints
  {
    assert AllListEndpoints[3] == "classes";
    assert AllListEndpoints[13] == "monsters";
    assert AllListEndpoints[19] == "spells";
  }

  /** The request path of an endpoint's list. */
  function RequestPath(key: string): string
  {
    "/" + key
  }

  /** Distinct endpoints are requested at distinct paths. */
  lemma RequestPathInjective(a: string, b: string)
    requires RequestPath(a) == RequestPath(b)
    ensures a == b
  {
    assert a == RequestPath(a)[1..];
    assert b == RequestPath(b)[1..];
  }

  /** The message a failed fetch leaves. */
  function FailureMessage(key: string): string
  {
    "Failed to load " + key
  }

  /** The state at the request: loading, with the error cleared. */
  function Begun(before: FetchState): FetchState
  {
    FetchState(true, None, before.data)
  }

  /** The state once the request has settled: the response is stored on
      success, the failure message on failure, and loading ends either way. */
  function Settled(before: FetchState, key: string, outcome: Result<ListData, string>): (s: FetchState)
    ensures !s.loading
    ensures outcome.Ok? ==> s.error == before.error && s.data == Some(outcome.value)
    ensures outcome.Err? ==> s.error == Some(FailureMessage(key)) && s.data == before.data
  {
    match outcome
    case Ok(d) => FetchState(false, before.error, Some(d))
    case Err(_) => FetchState(false, Some(FailureMessage(key)), before.data)
  }

  /** A whole `fetchList` on one bucket. */
  function AfterFetch(before: FetchState, key: string, outcome: Result<ListData, string>): FetchState
  {
    Settled(Begun(before), key, outcome)
  }

  /** A success leaves no error and the response as data; a failure leaves
      the message and the data as it was; loading is over on both paths. */
  lemma {:induction false} FetchOutcomes(before: FetchState, key: string, outcome: Result<ListData, string>)
    ensures var s := AfterFetch(before, key, outcome);
            && !s.loading
            && (outcome.Ok? ==> s == FetchState(false, None, Some(outcome.value)))
            && (outcome.Err? ==> s == FetchState(false, Some("Failed to load " + key), before.data))
  {
    var begun := Begun(before);
    assert begun.error == None && begun.data == before.data;
  }

  /** A later success clears an earlier failure; a later failure keeps what
      an earlier success loaded. */
  lemma RetryAfterFailure(before: FetchState, key: string, failure: string, d: ListData)
    ensures AfterFetch(AfterFetch(before, key, Err(failure)), key, Ok(d)) == FetchState(false, None, Some(d))
    ensures AfterFetch(AfterFetch(before, key, Ok(d)), key, Err(failure)).data == Some(d)
  {
    FetchOutcomes(before, key, Err(failure));
    FetchOutcomes(AfterFetch(before, key, Err(failure)), key, Ok(d));
  }

  /** One endpoint's fetch state, updated in place. */
  class Bucket {
    var loading: bool
    var error: Option<string>
    var data: Option<ListData>

    function State(): FetchState
      reads this
    {
      FetchState(loading, error, data)
    }

    /** `createFetchState`. */
    constructor ()
      ensures State() == Initial
    {
      loading := false;
      error := None;
      data := None;
    }

    /** `fetchList` up to the request: loading, with the error cleared. */
    method Begin()
      modifies this
      ensures State() == Begun(old(State()))
    {
      loading := true;
      error := None;
    }

    /** `fetchList` after the request: the `try`/`catch`/`finally`. */
    method Settle(key: string, outcome: Result<ListData, string>)
      modifies this
      ensures State() == Settled(old(State()), key, outcome)
    {
      if outcome.Ok? {
        data := Some(outcome.value);
      } else {
        error := Some(FailureMessage(key));
      }
      loading := false;
    }
  }

  /** No key is listed twice. */
  predicate Distinct(keys: seq<string>)
  {
    forall i, j :: 0 <= i < j < |keys| ==> keys[i] != keys[j]
  }

  /** `createListsState`: the reduce that gives each name a fresh bucket. */
  method CreateListsState(names: seq<string>) returns (acc: map<string, Bucket>)
    ensures forall k :: k in acc <==> k in names
    ensures forall a, b :: a in acc && b in acc && a != b ==> acc[a] != acc[b]
    ensures forall k :: k in acc ==> fresh(acc[k]) && acc[k].State() == Initial
  {
    acc := map[];
    var i := 0;
    while i < |names|
      invariant 0 <= i <= |names|
      invariant forall k :: k in acc <==> k in names[..i]
      invariant forall a, b :: a in acc && b in acc && a != b ==> acc[a] != acc[b]
      invariant forall k :: k in acc ==> fresh(acc[k]) && acc[k].State() == Initial
    {
      var b := new Bucket();
      assert names[..i + 1] == names[..i] + [names[i]];
      acc := acc[names[i] := b];
      i := i + 1;
    }
    assert names[..i] == names;
  }

  /** The store: a bucket object per list endpoint, kept under `keys`, the
      endpoints in order. */
  class Dnd5eStore {
    const keys: seq<string>
    const lists: map<string, Bucket>

    /** Every endpoint has its own bucket, and no other key has one. */
    ghost predicate Valid()
      reads this
    {
      && Distinct(keys)
      && (forall k :: k in lists <==> k in keys)
      && (forall a, b :: a in lists && b in lists && a != b ==> lists[a] != lists[b])
    }

    /** The store's state: a fresh, initial bucket for each endpoint. */
    constructor ()
      ensures Valid() && keys == AllListEndpoints
      ensures forall k :: k in lists ==> fresh(lists[k]) && lists[k].State() == Initial
    {
      EndpointsAreDistinct();
      var acc := CreateListsState(AllListEndpoints);
      keys := AllListEndpoints;
      lists := acc;
    }

    /** The `classes` getter hands out the bucket itself, not a copy. */
    function Classes(): (b: Bucket)
      requires Valid() && keys == AllListEndpoints
      reads this
      ensures "classes" in lists && b == lists["classes"]
    {
      EndpointsAreDistinct();
      lists["classes"]
    }

    /** The `spells` getter: the `spells` bucket itself. */
    function Spells(): (b: Bucket)
      requires Valid() && keys == AllListEndpoints
      reads this
      ensures "spells" in lists && b == lists["spells"]
    {
      EndpointsAreDistinct();
      lists["spells"]
    }

    /** The `monsters` getter: the `monsters` bucket itself. */
    function Monsters(): (b: Bucket)
      requires Valid() && keys == AllListEndpoints
      reads this
      ensures "monsters" in lists && b == lists["monsters"]
    {
      EndpointsAreDistinct();
      lists["monsters"]
    }

    /** `fetchList(key)`: requests the endpoint's path and settles its
        bucket; no other bucket changes. */
    method FetchList(key: string, get: string -> Result<ListData, string>) returns (path: string)
      requires Valid() && key in keys
      modifies lists[key]
      ensures path == RequestPath(key)
      ensures lists[key].State() == AfterFetch(old(lists[key].State()), key, get(path))
      ensures forall k :: k in lists && k != key ==> lists[k].State() == old(lists[k].State())
    {
      var bucket := lists[key];
      bucket.Begin();
      path := RequestPath(key);
      bucket.Settle(key, get(path));
    }

    /** `fetchAll`: one request per endpoint, in the endpoints' order (the
        requests are concurrent in the store; buckets are independent). */
    method FetchAll(get: string -> Result<ListData, string>) returns (paths: seq<string>)
      requires Valid()
      modifies lists.Values
      ensures |paths| == |keys|
      ensures forall i :: 0 <= i < |paths| ==> paths[i] == RequestPath(keys[i])
      ensures forall k :: k in lists ==>
                lists[k].State() == AfterFetch(old(lists[k].State()), k, get(RequestPath(k)))
    {
      paths := [];
      var i := 0;
      while i < |keys|
        invariant 0 <= i <= |keys| && |paths| == i
        invariant forall j :: 0 <= j < i ==> paths[j] == RequestPath(keys[j])
        invariant forall j :: 0 <= j < i ==>
                    lists[keys[j]].State() == AfterFetch(old(lists[keys[j]].State()), keys[j], get(RequestPath(keys[j])))
        invariant forall j :: i <= j < |keys| ==> lists[keys[j]].State() == old(lists[keys[j]].State())
      {
        var key := keys[i];
        var path := FetchList(key, get);
        paths := paths + [path];
        i := i + 1;
      }
      forall k | k in lists
        ensures lists[k].State() == AfterFetch(old(lists[k].State()), k, get(RequestPath(k)))
      {
        var j :| 0 <= j < |keys| && keys[j] == k;
      }
    }
  }

  /** `fetchAll` requests every endpoint exactly once. */
  lemma OneRequestPerEndpoint(keys: seq<string>, paths: seq<string>, key: string)
    requires Distinct(keys)
    requires |paths| == |keys|
    requires forall i :: 0 <= i < |paths| ==> paths[i] == RequestPath(keys[i])
    requires key in keys
    ensures multiset(paths)[RequestPath(key)] == 1
  {
    var k :| 0 <= k < |keys| && keys[k] == key;
    forall i | 0 <= i < |paths| && i != k
      ensures paths[i] != RequestPath(key)
    {
      if paths[i] == RequestPath(key) {
        RequestPathInjective(keys[i], key);
      }
    }
    CountOnce(paths, k);
  }

  /** A value that occurs at exactly one position occurs once. */
  lemma {:induction false} CountOnce<T>(s: seq<T>, k: nat)
    requires k < |s|
    requires forall i :: 0 <= i < |s| && i != k ==> s[i] != s[k]
    ensures multiset(s)[s[k]] == 1
    decreases |s|
  {
    var n := |s| - 1;
    assert s == s[..n] + [s[n]];
    if k == n {
      assert s[k] !in s[..n];
    } else {
      forall i | 0 <= i < n && i != k
        ensures s[..n][i] != s[..n][k]
      {
      }
      CountOnce(s[..n], k);
    }
  }
}
