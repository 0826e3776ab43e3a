/** One resolution pass as the source runs it: a loop over the matches that
    fetches each tag's value and merges it, unflattened, into the `resolved`
    dict, followed by the final merge into the pruned document. */
module Pass {
  import opened Results
  import opened Document
  import opened Engine
  import opened Backends

  /** `match.value[key]`: the configuration of the tag at `a`. */
  function TagConfig(doc: Doc, key: string, a: Address): Doc
    requires a in Locate(doc, key)
  {
    Get(doc, a).value.m[key]
  }

  /** Every tag's fetch succeeds. */
  ghost predicate AllFetched(doc: Doc, key: string, fetch: Doc -> Result<Doc>) {
    forall a :: a in Locate(doc, key) ==> fetch(TagConfig(doc, key, a)).Ok?
  }

  /** The fetched value of every tag, by address. */
  ghost function Fetched(doc: Doc, key: string, fetch: Doc -> Result<Doc>): (v: map<Address, Doc>)
    requires AllFetched(doc, key, fetch)
    ensures v.Keys == Locate(doc, key)
  {
    map a | a in Locate(doc, key) :: fetch(TagConfig(doc, key, a)).value
  }

  /** The loop's state: the matches split into those still to fetch and
      those fetched, every fetched value is what the fetch returned, and
      `resolved` is the tree of the fetched values. */
  ghost predicate Progress(doc: Doc, key: string, fetch: Doc -> Result<Doc>,
                           todo: set<Address>, done: map<Address, Doc>, resolved: map<string, Doc>)
  {
    Fetching(doc, key, fetch, todo, done) && resolved == Partial(doc, done, [])
  }

  /** The matches split into those still to fetch and those fetched, and
      every fetched value is what the fetch returned. */
  ghost predicate Fetching(doc: Doc, key: string, fetch: Doc -> Result<Doc>,
                           todo: set<Address>, done: map<Address, Doc>)
  {
    && todo !! done.Keys && todo + done.Keys == Locate(doc, key)
    && (forall a :: a in done ==> fetch(TagConfig(doc, key, a)) == Ok(done[a]))
  }

  /** The comprehension of `resolve`: fetch each match's value and merge it,
      unflattened to its address, into `resolved`. The matches are taken in
      any order; the first failing fetch ends the loop with its error. */
  method Accumulate(doc: Doc, key: string, fetch: Doc -> Result<Doc>) returns (r: Result<map<string, Doc>>, calls: nat)
    requires Resolvable(doc, key)
    ensures r.Ok? <==> AllFetched(doc, key, fetch)
    ensures r.Ok? ==> r.value == Partial(doc, Fetched(doc, key, fetch), [])
    ensures r.Err? ==> exists a :: a in Locate(doc, key) && fetch(TagConfig(doc, key, a)) == Err(r.error)
    ensures calls <= |Locate(doc, key)|
    ensures r.Ok? ==> calls == |Locate(doc, key)|
    ensures r.Err? ==> calls >= 1
  {
    var todo := Locate(doc, key);
    var done: map<Address, Doc> := map[];
    var resolved: map<string, Doc> := map[];
    calls := 0;
    Uncovered(doc, done, []);
    while todo != {}
      invariant Progress(doc, key, fetch, todo, done, resolved)
      invariant calls + |todo| == |Locate(doc, key)|
      decreases |todo|
    {
      var a :| a in todo;
      var x := fetch(TagConfig(doc, key, a));
      if x.Err? {
        Failed(doc, key, fetch, todo, done, a, calls);
        return Err(x.error), calls + 1;
      }
      calls := calls + 1;
      done, resolved := Merge(doc, key, fetch, todo, done, resolved, a, x.value);
      Remove(todo, a);
      todo := todo - {a};
    }
    Finished(doc, key, fetch, done, resolved);
    r := Ok(resolved);
  }

  /** One merge of the comprehension: the fetched value, unflattened to its
      address, joins the values merged so far. */
  method Merge(doc: Doc, key: string, fetch: Doc -> Result<Doc>, todo: set<Address>,
               done: map<Address, Doc>, resolved: map<string, Doc>, a: Address, x: Doc)
    returns (done': map<Address, Doc>, resolved': map<string, Doc>)
    requires Resolvable(doc, key) && Progress(doc, key, fetch, todo, done, resolved)
    requires a in todo && fetch(TagConfig(doc, key, a)) == Ok(x)
    ensures Progress(doc, key, fetch, todo - {a}, done', resolved')
  {
    Advance(doc, key, fetch, todo, done, resolved, a, x);
    resolved' := MergeMaps(resolved, Unflatten(a, x));
    done' := done[a := x];
  }

  /** A failing fetch is one of at most as many calls as there are tags. */
  lemma Failed(doc: Doc, key: string, fetch: Doc -> Result<Doc>,
               todo: set<Address>, done: map<Address, Doc>, a: Address, calls: nat)
    requires Fetching(doc, key, fetch, todo, done) && calls + |todo| == |Locate(doc, key)|
    requires a in todo && fetch(TagConfig(doc, key, a)).Err?
    ensures calls + 1 <= |Locate(doc, key)|
    ensures !AllFetched(doc, key, fetch)
    ensures exists b :: b in Locate(doc, key) && fetch(TagConfig(doc, key, b)) == Err(fetch(TagConfig(doc, key, a)).error)
  {
    assert a in Locate(doc, key);
  }

  /** Taking one match out of the ones still to fetch. */
  lemma Remove(todo: set<Address>, a: Address)
    requires a in todo
    ensures |todo - {a}| == |todo| - 1
  {
    assert todo == (todo - {a}) + {a};
  }

  /** One iteration keeps the loop's state. */
  lemma Advance(doc: Doc, key: string, fetch: Doc -> Result<Doc>,
                todo: set<Address>, done: map<Address, Doc>, resolved: map<string, Doc>, a: Address, x: Doc)
    requires Resolvable(doc, key) && Progress(doc, key, fetch, todo, done, resolved)
    requires a in todo && fetch(TagConfig(doc, key, a)) == Ok(x)
    ensures a != [] && MapOnly(a)
    ensures Progress(doc, key, fetch, todo - {a}, done[a := x], MergeMaps(resolved, Unflatten(a, x)))
  {
    var done' := done[a := x];
    assert done'.Keys == done.Keys + {a};
    assert (todo - {a}) + done'.Keys == todo + done.Keys;
    AdvanceFetched(doc, key, fetch, done, a, x);
    NewTag(doc, key, done, a);
    TreeAdd(doc, done, [], a, x);
  }

  lemma AdvanceFetched(doc: Doc, key: string, fetch: Doc -> Result<Doc>, done: map<Address, Doc>, a: Address, x: Doc)
    requires done.Keys <= Locate(doc, key) && a in Locate(doc, key)
    requires forall b :: b in done ==> fetch(TagConfig(doc, key, b)) == Ok(done[b])
    requires fetch(TagConfig(doc, key, a)) == Ok(x)
    ensures forall b :: b in done[a := x] ==> fetch(TagConfig(doc, key, b)) == Ok(done[a := x][b])
  {
  }

  /** With nothing left to fetch, the fetched values are those of every tag. */
  lemma Finished(doc: Doc, key: string, fetch: Doc -> Result<Doc>, done: map<Address, Doc>, resolved: map<string, Doc>)
    requires Progress(doc, key, fetch, {}, done, resolved)
    ensures AllFetched(doc, key, fetch) && resolved == Partial(doc, Fetched(doc, key, fetch), [])
  {
    assert done == Fetched(doc, key, fetch);
  }

  /** A match not yet merged can be merged: its address is a proper, map-only
      extension of the root, and comparable with no merged address. */
  lemma NewTag(doc: Doc, key: string, done: map<Address, Doc>, a: Address)
    requires Resolvable(doc, key) && done.Keys <= Locate(doc, key)
    requires a in Locate(doc, key) && a !in done
    ensures [] < a && MapOnly(a) && a[0..] == a && Get(doc, a[0..]).Some?
    ensures forall b :: b in done ==> !(a <= b) && !(b <= a)
  {
    assert a != [];
  }

  /** Every fetch succeeds when the backend's fetch succeeds on every tag. */
  lemma FetcherAll(doc: Doc, key: string, b: Backend, env: Env, session: Session)
    ensures AllFetched(doc, key, Fetcher(b, env, session)) <==>
              forall a :: a in Locate(doc, key) ==> Fetch(b, env, TagConfig(doc, key, a), session).Ok?
  {
  }

  /** Address `c` is neither above nor inside any tag container. */
  ghost predicate Apart(doc: Doc, key: string, c: Address) {
    forall a :: a in Locate(doc, key) ==> !(a <= c) && !(c <= a)
  }

  /** Fetched leaves replace their containers, and leave no key behind. */
  lemma LeavesReplace(doc: Doc, key: string, v: map<Address, Doc>)
    requires Resolvable(doc, key) && v.Keys == Locate(doc, key)
    requires forall a :: a in v ==> v[a].Leaf?
    ensures KeyFree(Resolved(doc, key, v), key)
    ensures forall a :: a in v ==> Get(Resolved(doc, key, v), a) == Some(v[a])
  {
    forall a | a in v ensures KeyFree(v[a], key) && Get(Resolved(doc, key, v), a) == Some(v[a]) {
      ResolvedReplaces(doc, key, v, a);
    }
    ResolvedKeyFree(doc, key, v);
  }

  /** A document with map-only tags and at least one tag is a map. */
  lemma TagsNeedMap(doc: Doc, key: string)
    ensures TagsMapOnly(doc, key) && Locate(doc, key) != {} ==> doc.Map?
  {
    if !doc.Map? && TagsMapOnly(doc, key) {
      NoTagsOutsideMaps(doc, key);
    }
  }

  /** `resolve(app_config)` for one backend. Without a match the document is
      returned as it is and no client is built. Otherwise a per-pass client is
      built once and handed to every fetch (a per-fetch backend builds one in
      each fetch), the key is deleted everywhere and the accumulated tree is
      merged into what remains. */
  method Resolve(b: Backend, env: Env, doc: Doc) returns (r: Result<Doc>, clients: nat, fetches: nat, ghost values: map<Address, Doc>)
    requires Resolvable(doc, ProviderKey(b))
    ensures Locate(doc, ProviderKey(b)) == {} ==> r == Ok(doc) && clients == 0 && fetches == 0
    ensures r.Ok? <==> AllFetched(doc, ProviderKey(b), Fetcher(b, env, Provider(b, env)))
    ensures r.Ok? ==> values.Keys == Locate(doc, ProviderKey(b))
    ensures r.Ok? ==> forall a :: a in values ==>
              a in Locate(doc, ProviderKey(b)) && Fetch(b, env, TagConfig(doc, ProviderKey(b), a), Provider(b, env)) == Ok(values[a])
    ensures r.Ok? ==> r.value == Resolved(doc, ProviderKey(b), values)
    ensures r.Err? ==> exists a :: a in Locate(doc, ProviderKey(b)) && Fetch(b, env, TagConfig(doc, ProviderKey(b), a), Provider(b, env)) == Err(r.error)
    ensures fetches <= |Locate(doc, ProviderKey(b))|
    ensures r.Ok? ==> fetches == |Locate(doc, ProviderKey(b))|
    ensures PerPassClient(b) ==> clients == (if Locate(doc, ProviderKey(b)) == {} then 0 else 1)
    ensures PerFetchClient(b) ==> clients == fetches
    ensures !PerPassClient(b) && !PerFetchClient(b) ==> clients == 0
  {
    var key := ProviderKey(b);
    var count := |Locate(doc, key)|;
    if count > 0 {
      var session := Provider(b, env);
      clients := if PerPassClient(b) then 1 else 0;
      var acc;
      acc, fetches := Accumulate(doc, key, Fetcher(b, env, session));
      if PerFetchClient(b) {
        clients := fetches;
      }
      if acc.Err? {
        return Err(acc.error), clients, fetches, map[];
      }
      TagsNeedMap(doc, key);
      r := Ok(MergeInto(Prune(doc, key), acc.value));
      values := Fetched(doc, key, Fetcher(b, env, session));
    } else {
      ResolvedNoTags(doc, key);
      r, clients, fetches, values := Ok(doc), 0, 0, map[];
    }
  }

  /** The same pass with its promises stated tag by tag, as the per-key
      copies of the resolvers use them. */
  method ResolveTags(b: Backend, env: Env, doc: Doc) returns (r: Result<Doc>, clients: nat, fetches: nat)
    requires Resolvable(doc, ProviderKey(b))
    ensures Locate(doc, ProviderKey(b)) == {} ==> r == Ok(doc) && clients == 0 && fetches == 0
    ensures r.Ok? <==> AllFetched(doc, ProviderKey(b), Fetcher(b, env, Provider(b, env)))
    ensures r.Err? ==> exists a :: a in Locate(doc, ProviderKey(b)) && Fetch(b, env, TagConfig(doc, ProviderKey(b), a), Provider(b, env)) == Err(r.error)
    ensures fetches <= |Locate(doc, ProviderKey(b))|
    ensures r.Ok? ==> fetches == |Locate(doc, ProviderKey(b))|
    ensures PerPassClient(b) ==> clients == (if Locate(doc, ProviderKey(b)) == {} then 0 else 1)
    ensures PerFetchClient(b) ==> clients == fetches
    ensures !PerPassClient(b) && !PerFetchClient(b) ==> clients == 0
    ensures r.Ok? && !b.Value? ==> KeyFree(r.value, ProviderKey(b))
    ensures r.Ok? && !b.Value? ==> forall a :: a in Locate(doc, ProviderKey(b)) ==>
              Fetch(b, env, TagConfig(doc, ProviderKey(b), a), Provider(b, env)).Ok? &&
              Get(r.value, a) == Some(Fetch(b, env, TagConfig(doc, ProviderKey(b), a), Provider(b, env)).value)
    ensures r.Ok? ==> forall c :: Apart(doc, ProviderKey(b), c) ==> Get(r.value, c) == Get(doc, c)
  {
    ghost var values;
    r, clients, fetches, values := Resolve(b, env, doc);
    if r.Ok? {
      AtTags(b, env, doc, values);
    }
  }

  /** What the merged rewrite of a pass's fetched values holds: a non-Value
      backend's leaves replace their tags' containers and leave no key, and
      addresses away from the tags keep their nodes. */
  lemma AtTags(b: Backend, env: Env, doc: Doc, values: map<Address, Doc>)
    requires Resolvable(doc, ProviderKey(b)) && values.Keys == Locate(doc, ProviderKey(b))
    requires forall a :: a in values ==>
               a in Locate(doc, ProviderKey(b)) && Fetch(b, env, TagConfig(doc, ProviderKey(b), a), Provider(b, env)) == Ok(values[a])
    ensures !b.Value? ==> KeyFree(Resolved(doc, ProviderKey(b), values), ProviderKey(b))
    ensures !b.Value? ==> forall a :: a in Locate(doc, ProviderKey(b)) ==>
              Fetch(b, env, TagConfig(doc, ProviderKey(b), a), Provider(b, env)).Ok? &&
              Get(Resolved(doc, ProviderKey(b), values), a) == Some(Fetch(b, env, TagConfig(doc, ProviderKey(b), a), Provider(b, env)).value)
    ensures forall c :: Apart(doc, ProviderKey(b), c) ==> Get(Resolved(doc, ProviderKey(b), values), c) == Get(doc, c)
  {
    var key := ProviderKey(b);
    if !b.Value? {
      LeavesReplace(doc, key, values);
    }
    forall c | Apart(doc, key, c) ensures Get(Resolved(doc, key, values), c) == Get(doc, c) {
      ResolvedElsewhere(doc, key, values, c);
    }
  }
}
