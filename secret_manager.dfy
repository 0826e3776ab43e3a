/** module/google_secret_manager.py: `resolve_secret_manager_values` resolves
    every `google_secret_manager` tag with `fetch_secret`, one Secret Manager
    client for the whole pass. */
module SecretManagerValues {
  import opened Results
  import opened Document
  import opened Engine
  import opened Backends
  import opened Pass

  /** The tag key of this copy; the class in resolvers.py and module.py uses
      `google_cloud_secret_manager` instead. */
  const KEY := "google_secret_manager"

  /** The backend this copy of the resolver is: a per-pass client. */
  const SecretManagerModule: Backend := SecretManager(KEY, false)

  /** The value `fetch_secret` gives the tag at `a`. */
  function TagValue(env: Env, doc: Doc, a: Address): Result<Doc>
    requires a in Locate(doc, KEY)
  {
    FetchSecret(TagConfig(doc, KEY, a), env.secretManager, env.codecs)
  }

  /** `resolve_secret_manager_values(app_config)`. */
  method ResolveSecretManagerValues(env: Env, doc: Doc) returns (r: Result<Doc>, clients: nat, fetches: nat)
    requires Resolvable(doc, KEY)
    ensures Locate(doc, KEY) == {} ==> r == Ok(doc) && clients == 0 && fetches == 0
    ensures fetches <= |Locate(doc, KEY)|
    ensures r.Ok? ==> fetches == |Locate(doc, KEY)|
    ensures Locate(doc, KEY) != {} ==> clients == 1
    ensures r.Ok? <==> forall a :: a in Locate(doc, KEY) ==> TagValue(env, doc, a).Ok?
    ensures r.Err? ==> exists a :: a in Locate(doc, KEY) && TagValue(env, doc, a) == Err(r.error)
    ensures r.Ok? ==> KeyFree(r.value, KEY)
    ensures r.Ok? ==> forall a :: a in Locate(doc, KEY) ==>
              && Get(r.value, a) == Some(TagValue(env, doc, a).value)
              && (Flag(TagConfig(doc, KEY, a), "base64") <==> TagValue(env, doc, a).value.v.Text?)
    ensures r.Ok? ==> forall c :: Apart(doc, KEY, c) ==> Get(r.value, c) == Get(doc, c)
  {
    assert ProviderKey(SecretManagerModule) == KEY;
    assert Provider(SecretManagerModule, env) == SecretManagerClient(env.secretManager);
    r, clients, fetches := ResolveTags(SecretManagerModule, env, doc);
    FetcherAll(doc, KEY, SecretManagerModule, env, SecretManagerClient(env.secretManager));
    forall a | a in Locate(doc, KEY)
      ensures Fetch(SecretManagerModule, env, TagConfig(doc, KEY, a), SecretManagerClient(env.secretManager)) == TagValue(env, doc, a)
    {
    }
  }
}
