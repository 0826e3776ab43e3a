/** The resolver classes of resolvers.py: each resolves one provider key with
    `Pass.Resolve`. Their keys go through `get_value`, so a key `base:field`
    reads `base` and selects `field` from it as a properties blob, and the
    Kubernetes and secret-manager clients are built once per pass by
    `provider()`. */
module Resolvers {
  import opened Results
  import opened Document
  import opened Properties
  import opened Backends

  const ValueResolver: Backend := Value
  const FileResolver: Backend := File(true)
  const KubernetesResolver: Backend := Kubernetes(true, false)
  const GoogleCloudSecretManagerResolver: Backend := SecretManager("google_cloud_secret_manager", false)

  /** The four resolvers answer to four distinct keys, and only the Kubernetes
      and secret-manager resolvers build a client, once per pass. */
  lemma ResolverKeys()
    ensures ProviderKey(ValueResolver) == "value" && ProviderKey(FileResolver) == "file"
    ensures ProviderKey(KubernetesResolver) == "kubernetes"
    ensures ProviderKey(GoogleCloudSecretManagerResolver) == "google_cloud_secret_manager"
    ensures PerPassClient(KubernetesResolver) && PerPassClient(GoogleCloudSecretManagerResolver)
    ensures !PerPassClient(ValueResolver) && !PerPassClient(FileResolver)
    ensures !PerFetchClient(ValueResolver) && !PerFetchClient(FileResolver)
    ensures !PerFetchClient(KubernetesResolver) && !PerFetchClient(GoogleCloudSecretManagerResolver)
  {
  }

  /** `File.fetch` with a path `path:field` reads the file at `path` as text
      and returns entry `field` of its properties. */
  lemma FileCompositeKey(env: Env, path: string, field: string, blob: string)
    requires ':' !in path && path in env.files && env.codecs.readText(env.files[path]) == Some(blob)
    requires PropertyStrToDict(blob).Ok?
    ensures var cfg := Map(map["path" := Leaf(Text(path + ":" + field))]);
      Fetch(FileResolver, env, cfg, Provider(FileResolver, env)) ==
        (var props := PropertyStrToDict(blob).value;
         if field in props then Ok(Leaf(Text(props[field]))) else Err(KeyNotFound(field)))
  {
    var cfg := Map(map["path" := Leaf(Text(path + ":" + field))]);
    assert !Flag(cfg, "binary");
    assert FileExtractor(env.files, env.codecs, false)(path) == Ok(Leaf(Text(blob)));
    GetValueComposite(path, field, FileExtractor(env.files, env.codecs, false), blob);
  }

  /** A Kubernetes Secret entry holding a properties blob: `key: entry:field`
      base64-decodes the entry and returns `field` of the blob. */
  lemma SecretCompositeKey(env: Env, secret: Doc, data: map<string, seq<byte>>, entry: string, field: string, blob: string)
    requires secret.Map? && LookupText(secret, "name").Ok? && LookupText(secret, "namespace").Ok?
    requires ReadSecret(env.cluster, LookupText(secret, "name").value, LookupText(secret, "namespace").value) == Ok(data)
    requires LookupText(secret, "key") == Ok(entry + ":" + field) && ':' !in entry
    requires entry in data && DecodeBase64Text(env.codecs, data[entry]) == Ok(blob)
    requires PropertyStrToDict(blob).Ok?
    ensures Fetch(KubernetesResolver, env, Map(map["secret" := secret]), Provider(KubernetesResolver, env)) ==
        (var props := PropertyStrToDict(blob).value;
         if field in props then Ok(Leaf(Text(props[field]))) else Err(KeyNotFound(field)))
  {
    assert SecretExtractor(env.codecs, data)(entry) == Ok(Leaf(Text(blob)));
    GetValueComposite(entry, field, SecretExtractor(env.codecs, data), blob);
  }
}
