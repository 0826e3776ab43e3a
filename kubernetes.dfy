/** module/kubernetes.py: `resolve_k8s_values` resolves every `kubernetes` tag
    with `from_kubernetes`, one CoreV1Api client for the whole pass, and the
    tag's `key` taken literally (no `get_value`). */
module KubernetesValues {
  import opened Results
  import opened Document
  import opened Engine
  import opened Backends
  import opened Pass

  const KEY := "kubernetes"

  /** The backend this copy of the resolver is: plain keys, a per-pass client. */
  const K8sModule: Backend := Kubernetes(false, false)

  /** The value `from_kubernetes` gives the tag at `a`. */
  function TagValue(env: Env, doc: Doc, a: Address): Result<Doc>
    requires a in Locate(doc, KEY)
  {
    FromKubernetes(TagConfig(doc, KEY, a), env.cluster, env.codecs, false)
  }

  /** `resolve_k8s_values(app_config)`. */
  method ResolveK8sValues(env: Env, doc: Doc) returns (r: Result<Doc>, clients: nat, fetches: nat)
    requires Resolvable(doc, KEY)
    ensures Locate(doc, KEY) == {} ==> r == Ok(doc) && clients == 0 && fetches == 0
    ensures fetches <= |Locate(doc, KEY)|
    ensures r.Ok? ==> fetches == |Locate(doc, KEY)|
    ensures Locate(doc, KEY) != {} ==> clients == 1
    ensures r.Ok? <==> forall a :: a in Locate(doc, KEY) ==> TagValue(env, doc, a).Ok?
    ensures r.Err? ==> exists a :: a in Locate(doc, KEY) && TagValue(env, doc, a) == Err(r.error)
    ensures r == Err(NotImplemented) ==>
              exists a :: a in Locate(doc, KEY) && !IsTag(TagConfig(doc, KEY, a), "secret") && !IsTag(TagConfig(doc, KEY, a), "configmap")
    ensures r.Ok? ==> KeyFree(r.value, KEY)
    ensures r.Ok? ==> forall a :: a in Locate(doc, KEY) ==> Get(r.value, a) == Some(TagValue(env, doc, a).value)
    ensures r.Ok? ==> forall c :: Apart(doc, KEY, c) ==> Get(r.value, c) == Get(doc, c)
  {
    assert ProviderKey(K8sModule) == KEY;
    assert Provider(K8sModule, env) == CoreV1Api(env.cluster);
    r, clients, fetches := ResolveTags(K8sModule, env, doc);
    FetcherAll(doc, KEY, K8sModule, env, CoreV1Api(env.cluster));
    forall a | a in Locate(doc, KEY)
      ensures Fetch(K8sModule, env, TagConfig(doc, KEY, a), CoreV1Api(env.cluster)) == TagValue(env, doc, a)
    {
    }
  }
}
