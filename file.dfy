/** module/file.py: `resolve_file_values` resolves every `file` tag with
    `fetch_file`, which reads the whole file at the tag's `path` (no
    `get_value`, no client). */
module FileValues {
  import opened Results
  import opened Document
  import opened Engine
  import opened Backends
  import opened Pass

  const KEY := "file"

  /** The backend this copy of the resolver is: plain paths. */
  const FileModule: Backend := File(false)

  /** The value `fetch_file` gives the tag at `a`. */
  function TagValue(env: Env, doc: Doc, a: Address): Result<Doc>
    requires a in Locate(doc, KEY)
  {
    FetchFile(TagConfig(doc, KEY, a), env.files, env.codecs, false)
  }

  /** `resolve_file_values(app_config)`, with the number of files read. */
  method ResolveFileValues(env: Env, doc: Doc) returns (r: Result<Doc>, filesRead: nat)
    requires Resolvable(doc, KEY)
    ensures Locate(doc, KEY) == {} ==> r == Ok(doc) && filesRead == 0
    ensures filesRead <= |Locate(doc, KEY)|
    ensures r.Ok? ==> filesRead == |Locate(doc, KEY)|
    ensures r.Ok? <==> forall a :: a in Locate(doc, KEY) ==> TagValue(env, doc, a).Ok?
    ensures r.Err? ==> exists a :: a in Locate(doc, KEY) && TagValue(env, doc, a) == Err(r.error)
    ensures r.Ok? ==> KeyFree(r.value, KEY)
    ensures r.Ok? ==> forall a :: a in Locate(doc, KEY) ==>
              && Get(r.value, a) == Some(TagValue(env, doc, a).value)
              && (Flag(TagConfig(doc, KEY, a), "binary") <==> TagValue(env, doc, a).value.v.Bytes?)
    ensures r.Ok? ==> forall c :: Apart(doc, KEY, c) ==> Get(r.value, c) == Get(doc, c)
  {
    assert ProviderKey(FileModule) == KEY;
    assert Provider(FileModule, env) == NoSession;
    var clients;
    r, clients, filesRead := ResolveTags(FileModule, env, doc);
    FetcherAll(doc, KEY, FileModule, env, NoSession);
    forall a | a in Locate(doc, KEY)
      ensures Fetch(FileModule, env, TagConfig(doc, KEY, a), NoSession) == TagValue(env, doc, a)
    {
    }
  }
}
