/** module.py: the earlier class-based copy of the resolvers. Its keys are
    taken literally (no `get_value`), and the Kubernetes and secret-manager
    classes build a fresh client inside every `fetch`. */
module ModuleClasses {
  import opened Results
  import opened Document
  import opened Engine
  import opened Backends
  import opened Pass
  import Resolvers

  const ValueModule: Backend := Value
  const FileModule: Backend := File(false)
  const KubernetesModule: Backend := Kubernetes(false, true)
  const GoogleCloudSecretManagerModule: Backend := SecretManager("google_cloud_secret_manager", true)

  /** The classes of module.py. */
  predicate IsModuleClass(b: Backend) {
    b == ValueModule || b == FileModule || b == KubernetesModule || b == GoogleCloudSecretManagerModule
  }

  /** `Module.resolve(app_config)`: no client outside the fetches, one client
      built per fetch by the Kubernetes and secret-manager classes. */
  method Resolve(b: Backend, env: Env, doc: Doc) returns (r: Result<Doc>, clients: nat, fetches: nat)
    requires IsModuleClass(b) && Resolvable(doc, ProviderKey(b))
    ensures Locate(doc, ProviderKey(b)) == {} ==> r == Ok(doc) && clients == 0 && fetches == 0
    ensures r.Ok? <==> forall a :: a in Locate(doc, ProviderKey(b)) ==> Fetch(b, env, TagConfig(doc, ProviderKey(b), a), NoSession).Ok?
    ensures r.Err? ==> exists a :: a in Locate(doc, ProviderKey(b)) && Fetch(b, env, TagConfig(doc, ProviderKey(b), a), NoSession) == Err(r.error)
    ensures r.Ok? ==> fetches == |Locate(doc, ProviderKey(b))|
    ensures clients == (if b.Kubernetes? || b.SecretManager? then fetches else 0)
    ensures r.Ok? && !b.Value? ==> KeyFree(r.value, ProviderKey(b))
    ensures r.Ok? && !b.Value? ==> forall a :: a in Locate(doc, ProviderKey(b)) ==>
              Get(r.value, a) == Some(Fetch(b, env, TagConfig(doc, ProviderKey(b), a), NoSession).value)
  {
    var key := ProviderKey(b);
    assert Provider(b, env) == NoSession;
    assert PerFetchClient(b) <==> b.Kubernetes? || b.SecretManager?;
    r, clients, fetches := ResolveTags(b, env, doc);
    FetcherAll(doc, key, b, env, NoSession);
  }

  /** The key named by `field` of a configuration holds no `:`. */
  predicate PlainKey(cfg: Doc, field: string) {
    LookupText(cfg, field).Ok? ==> ':' !in LookupText(cfg, field).value
  }

  /** The Kubernetes tags whose keys hold no `:`. */
  predicate PlainReference(cfg: Doc) {
    && (IsTag(cfg, "secret") ==> PlainKey(cfg.m["secret"], "key"))
    && (IsTag(cfg, "configmap") ==> PlainKey(cfg.m["configmap"], "key"))
  }

  /** Without a `:` in the key, the Kubernetes class of module.py fetches what
      the resolvers.py class fetches; only where the client is built differs. */
  lemma KubernetesAgrees(env: Env, cfg: Doc)
    requires PlainReference(cfg)
    ensures Fetch(KubernetesModule, env, cfg, NoSession) ==
              Fetch(Resolvers.KubernetesResolver, env, cfg, Provider(Resolvers.KubernetesResolver, env))
  {
    if IsTag(cfg, "secret") {
      SecretAgrees(cfg.m["secret"], env);
    } else if IsTag(cfg, "configmap") {
      ConfigMapAgrees(cfg.m["configmap"], env);
    }
  }

  lemma SecretAgrees(cfg: Doc, env: Env)
    requires PlainKey(cfg, "key")
    ensures FromK8sSecret(cfg, env.cluster, env.codecs, false) == FromK8sSecret(cfg, env.cluster, env.codecs, true)
  {
  }

  lemma ConfigMapAgrees(cfg: Doc, env: Env)
    requires PlainKey(cfg, "key")
    ensures FromK8sConfigMap(cfg, env.cluster, env.codecs, false) == FromK8sConfigMap(cfg, env.cluster, env.codecs, true)
  {
  }

  /** Without a `:` in the path, the File class of module.py reads what the
      resolvers.py class reads. */
  lemma FileAgrees(env: Env, cfg: Doc)
    requires PlainKey(cfg, "path")
    ensures Fetch(FileModule, env, cfg, NoSession) == Fetch(Resolvers.FileResolver, env, cfg, NoSession)
  {
  }

  /** With a `:` in the path the two File classes part: module.py opens the
      whole `base:field` path, resolvers.py opens `base` and selects `field`. */
  lemma FileColonPath(env: Env, base: string, field: string)
    requires ':' !in base && base + ":" + field !in env.files
    ensures var cfg := Map(map["path" := Leaf(Text(base + ":" + field))]);
      Fetch(FileModule, env, cfg, NoSession) == Err(FileNotFound(base + ":" + field))
  {
  }

  /** The secret-manager classes of module.py and resolvers.py fetch the same value. */
  lemma SecretManagerAgrees(env: Env, cfg: Doc)
    ensures Fetch(GoogleCloudSecretManagerModule, env, cfg, NoSession) ==
              Fetch(Resolvers.GoogleCloudSecretManagerResolver, env, cfg, Provider(Resolvers.GoogleCloudSecretManagerResolver, env))
  {
  }
}
