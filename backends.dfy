/** The provider backends: how each kind of provider tag turns its
    configuration into a concrete value. The outside world (the Kubernetes API,
    the secret manager, the file system and the base64/UTF-8 codecs) is an
    `Env` value handed in by the caller. */
module Backends {
  import opened Results
  import opened Document
  import opened Properties

  /** A ConfigMap as the API returns it: text entries, and binary entries as base64 text. */
  datatype ConfigMapObject = ConfigMapObject(data: map<string, string>, binaryData: map<string, seq<byte>>)

  /** The namespaced objects of a cluster, keyed by (name, namespace). Secret
      entries are held as the bytes of their base64 text. */
  datatype Cluster = Cluster(
    secrets: map<(string, string), map<string, seq<byte>>>,
    configMaps: map<(string, string), ConfigMapObject>)

  /** The codecs the core calls into: base64, UTF-8, and the decoding a
      text-mode `open(...).read()` applies to a file's bytes. */
  datatype Codecs = Codecs(
    b64decode: seq<byte> -> Option<seq<byte>>,
    b64encode: seq<byte> -> seq<byte>,
    utf8decode: seq<byte> -> Option<string>,
    utf8encode: string -> seq<byte>,
    readText: seq<byte> -> Option<string>)

  /** Each decoder undoes its encoder. */
  ghost predicate Inverse(c: Codecs) {
    && (forall bs :: c.b64decode(c.b64encode(bs)) == Some(bs))
    && (forall s :: c.utf8decode(c.utf8encode(s)) == Some(s))
  }

  /** Everything outside the engine: cluster, secret manager (secret resource
      name to payload), files (path to contents) and codecs. */
  datatype Env = Env(cluster: Cluster, secretManager: map<string, seq<byte>>, files: map<string, seq<byte>>, codecs: Codecs)

  /** A provider handle: nothing, a Kubernetes API client, or a secret-manager client. */
  datatype Session = NoSession | CoreV1Api(api: Cluster) | SecretManagerClient(store: map<string, seq<byte>>)

  function B64Decode(c: Codecs, raw: seq<byte>): (r: Result<seq<byte>>)
    ensures r.Ok? <==> c.b64decode(raw).Some?
    ensures r.Ok? ==> r.value == c.b64decode(raw).value
  {
    match c.b64decode(raw)
    case Some(bs) => Ok(bs)
    case None => Err(DecodeFailure)
  }

  /** `base64.b64decode(raw).decode("utf-8")`. */
  function DecodeBase64Text(c: Codecs, raw: seq<byte>): (r: Result<string>)
    ensures r.Ok? <==> c.b64decode(raw).Some? && c.utf8decode(c.b64decode(raw).value).Some?
    ensures r.Ok? ==> Some(r.value) == c.utf8decode(c.b64decode(raw).value)
  {
    var bs :- B64Decode(c, raw);
    match c.utf8decode(bs)
    case Some(s) => Ok(s)
    case None => Err(DecodeFailure)
  }

  /** Text that was UTF-8 encoded then base64 encoded decodes back to itself. */
  lemma DecodeBase64TextRoundTrip(c: Codecs, text: string)
    requires Inverse(c)
    ensures DecodeBase64Text(c, c.b64encode(c.utf8encode(text))) == Ok(text)
  {
    assert c.b64decode(c.b64encode(c.utf8encode(text))) == Some(c.utf8encode(text));
    assert c.utf8decode(c.utf8encode(text)) == Some(text);
  }

  /** `read_namespaced_secret(name, namespace).data`. */
  function ReadSecret(api: Cluster, name: string, namespace: string): (r: Result<map<string, seq<byte>>>)
    ensures r.Ok? <==> (name, namespace) in api.secrets
    ensures r.Ok? ==> r.value == api.secrets[(name, namespace)]
  {
    if (name, namespace) in api.secrets then Ok(api.secrets[(name, namespace)])
    else Err(ApiNotFound("secret", name, namespace))
  }

  /** `read_namespaced_config_map(name, namespace)`. */
  function ReadConfigMap(api: Cluster, name: string, namespace: string): (r: Result<ConfigMapObject>)
    ensures r.Ok? <==> (name, namespace) in api.configMaps
    ensures r.Ok? ==> r.value == api.configMaps[(name, namespace)]
  {
    if (name, namespace) in api.configMaps then Ok(api.configMaps[(name, namespace)])
    else Err(ApiNotFound("configmap", name, namespace))
  }

  /** One Secret entry, base64-decoded then UTF-8 decoded. */
  function SecretEntry(c: Codecs, data: map<string, seq<byte>>, key: string): (r: Result<Doc>)
    ensures r.Ok? ==> key in data && r.value.Leaf? && r.value.v.Text?
    ensures r.Ok? ==> Ok(r.value.v.s) == DecodeBase64Text(c, data[key])
    ensures key !in data ==> r == Err(KeyNotFound(key))
    ensures r.Err? ==> r.error == KeyNotFound(key) || r.error == DecodeFailure
    ensures key in data ==> (r.Ok? <==> DecodeBase64Text(c, data[key]).Ok?) && (r.Err? ==> r.error == DecodeFailure)
  {
    if key !in data then Err(KeyNotFound(key))
    else
      var s :- DecodeBase64Text(c, data[key]);
      Ok(Leaf(Text(s)))
  }

  /** One ConfigMap text entry, returned unmodified. */
  function ConfigMapEntry(data: map<string, string>, key: string): (r: Result<Doc>)
    ensures r.Ok? <==> key in data
    ensures r.Ok? ==> r.value == Leaf(Text(data[key]))
  {
    if key in data then Ok(Leaf(Text(data[key]))) else Err(KeyNotFound(key))
  }

  /** The key lookup of a backend: through `get_value` (composite keys) or directly. */
  function ExtractKey(composite: bool, key: string, extract: string -> Result<Doc>): (r: Result<Doc>)
    ensures !composite || ':' !in key ==> r == extract(key)
  {
    if composite then GetValue(key, extract) else extract(key)
  }

  /** `from_k8s_secret`: read the Secret named by the configuration and decode the entry `key`. */
  function FromK8sSecret(cfg: Doc, api: Cluster, c: Codecs, composite: bool): (r: Result<Doc>)
    ensures r != Err(NotImplemented)
  {
    var name :- LookupText(cfg, "name");
    var namespace :- LookupText(cfg, "namespace");
    var data :- ReadSecret(api, name, namespace);
    var key :- LookupText(cfg, "key");
    ExtractKey(composite, key, SecretExtractor(c, data))
  }

  /** The extractor `from_k8s_secret` hands to `get_value`. */
  function SecretExtractor(c: Codecs, data: map<string, seq<byte>>): string -> Result<Doc> {
    k => SecretEntry(c, data, k)
  }

  /** `from_k8s_configmap`: a binary ConfigMap entry is base64-decoded from the
      binary data (never through `get_value`); otherwise the text entry is
      returned as it is. */
  function FromK8sConfigMap(cfg: Doc, api: Cluster, c: Codecs, composite: bool): (r: Result<Doc>)
    ensures r != Err(NotImplemented)
    ensures r.Ok? && Flag(cfg, "binary") ==> r.value.Leaf? && r.value.v.Bytes?
    ensures r.Ok? ==> && LookupText(cfg, "name").Ok? && LookupText(cfg, "namespace").Ok? && LookupText(cfg, "key").Ok?
                      && (LookupText(cfg, "name").value, LookupText(cfg, "namespace").value) in api.configMaps
    ensures r.Ok? && Flag(cfg, "binary") ==>
              var obj := api.configMaps[(LookupText(cfg, "name").value, LookupText(cfg, "namespace").value)];
              var key := LookupText(cfg, "key").value;
              key in obj.binaryData && Some(r.value.v.bs) == c.b64decode(obj.binaryData[key])
    ensures && LookupText(cfg, "name").Ok? && LookupText(cfg, "namespace").Ok? && LookupText(cfg, "key").Ok?
            && (LookupText(cfg, "name").value, LookupText(cfg, "namespace").value) in api.configMaps
            && !Flag(cfg, "binary") && (!composite || ':' !in LookupText(cfg, "key").value) ==>
              var obj := api.configMaps[(LookupText(cfg, "name").value, LookupText(cfg, "namespace").value)];
              r == ConfigMapEntry(obj.data, LookupText(cfg, "key").value)
    ensures && LookupText(cfg, "name").Ok? && LookupText(cfg, "namespace").Ok? && LookupText(cfg, "key").Ok?
            && (LookupText(cfg, "name").value, LookupText(cfg, "namespace").value) in api.configMaps
            && Flag(cfg, "binary") ==>
              var obj := api.configMaps[(LookupText(cfg, "name").value, LookupText(cfg, "namespace").value)];
              var key := LookupText(cfg, "key").value;
              r.Ok? <==> key in obj.binaryData && c.b64decode(obj.binaryData[key]).Some?
  {
    var name :- LookupText(cfg, "name");
    var namespace :- LookupText(cfg, "namespace");
    var obj :- ReadConfigMap(api, name, namespace);
    if Flag(cfg, "binary") then
      var key :- LookupText(cfg, "key");
      if key in obj.binaryData then
        var bs :- B64Decode(c, obj.binaryData[key]);
        Ok(Leaf(Bytes(bs)))
      else Err(KeyNotFound(key))
    else
      var key :- LookupText(cfg, "key");
      ExtractKey(composite, key, ConfigMapExtractor(obj.data))
  }

  /** The extractor `from_k8s_configmap` hands to `get_value`. */
  function ConfigMapExtractor(data: map<string, string>): string -> Result<Doc> {
    k => ConfigMapEntry(data, k)
  }

  /** `from_kubernetes` (and `Kubernetes.fetch`): `secret` is tried before
      `configmap`, and a configuration with neither is NotImplemented. */
  function FromKubernetes(cfg: Doc, api: Cluster, c: Codecs, composite: bool): (r: Result<Doc>)
    ensures r == Err(NotImplemented) <==> !IsTag(cfg, "secret") && !IsTag(cfg, "configmap")
    ensures IsTag(cfg, "secret") ==> r == FromK8sSecret(cfg.m["secret"], api, c, composite)
    ensures !IsTag(cfg, "secret") && IsTag(cfg, "configmap") ==>
              r == FromK8sConfigMap(cfg.m["configmap"], api, c, composite)
  {
    if IsTag(cfg, "secret") then FromK8sSecret(cfg.m["secret"], api, c, composite)
    else if IsTag(cfg, "configmap") then FromK8sConfigMap(cfg.m["configmap"], api, c, composite)
    else Err(NotImplemented)
  }

  /** A Secret entry written as base64 of UTF-8 text is fetched back as that text. */
  lemma SecretRoundTrip(cfg: Doc, api: Cluster, c: Codecs, name: string, namespace: string, key: string, text: string)
    requires Inverse(c)
    requires cfg == Map(map["name" := Leaf(Text(name)), "namespace" := Leaf(Text(namespace)), "key" := Leaf(Text(key))])
    requires (name, namespace) in api.secrets
    requires api.secrets[(name, namespace)][key := c.b64encode(c.utf8encode(text))] == api.secrets[(name, namespace)]
    ensures FromKubernetes(Map(map["secret" := cfg]), api, c, false) == Ok(Leaf(Text(text)))
  {
    DecodeBase64TextRoundTrip(c, text);
    assert key in api.secrets[(name, namespace)];
  }

  /** A binary ConfigMap entry is the same with and without composite-key extraction. */
  lemma BinaryBypassesGetValue(cfg: Doc, api: Cluster, c: Codecs)
    requires Flag(cfg, "binary")
    ensures FromK8sConfigMap(cfg, api, c, true) == FromK8sConfigMap(cfg, api, c, false)
  {
  }

  /** `open(path, 'rb' if binary else 'r').read()`. */
  function ReadFile(files: map<string, seq<byte>>, c: Codecs, path: string, binary: bool): (r: Result<Doc>)
    ensures r.Ok? ==> path in files
    ensures r.Ok? && binary ==> r.value == Leaf(Bytes(files[path]))
    ensures r.Ok? && !binary ==> r.value.Leaf? && r.value.v.Text? && Some(r.value.v.s) == c.readText(files[path])
    ensures path !in files ==> r == Err(FileNotFound(path))
    ensures path in files ==> (r.Ok? <==> binary || c.readText(files[path]).Some?)
  {
    if path !in files then Err(FileNotFound(path))
    else if binary then Ok(Leaf(Bytes(files[path])))
    else match c.readText(files[path])
      case Some(s) => Ok(Leaf(Text(s)))
      case None => Err(DecodeFailure)
  }

  /** `fetch_file` / `File.fetch`: binary mode exactly when the `binary` flag is set and truthy. */
  function FetchFile(cfg: Doc, files: map<string, seq<byte>>, c: Codecs, composite: bool): (r: Result<Doc>)
    ensures !composite && r.Ok? ==> (Flag(cfg, "binary") <==> r.value.Leaf? && r.value.v.Bytes?)
    ensures !composite && r.Ok? ==> LookupText(cfg, "path").Ok? && LookupText(cfg, "path").value in files
    ensures !composite && r.Ok? && Flag(cfg, "binary") ==> r.value == Leaf(Bytes(files[LookupText(cfg, "path").value]))
    ensures !composite && LookupText(cfg, "path").Ok? ==>
              r == ReadFile(files, c, LookupText(cfg, "path").value, Flag(cfg, "binary"))
  {
    var binary := Flag(cfg, "binary");
    var path :- LookupText(cfg, "path");
    ExtractKey(composite, path, FileExtractor(files, c, binary))
  }

  /** The extractor `File.fetch` hands to `get_value`. */
  function FileExtractor(files: map<string, seq<byte>>, c: Codecs, binary: bool): string -> Result<Doc> {
    p => ReadFile(files, c, p, binary)
  }

  /** `fetch_secret` / `GoogleCloudSecretManager.fetch`: the payload of the named
      secret, decoded to text exactly when `base64` is set and truthy. */
  function FetchSecret(cfg: Doc, store: map<string, seq<byte>>, c: Codecs): (r: Result<Doc>)
    ensures r.Ok? ==> (Flag(cfg, "base64") <==> r.value.Leaf? && r.value.v.Text?)
    ensures r.Ok? ==> LookupText(cfg, "secret").Ok? && LookupText(cfg, "secret").value in store
    ensures r.Ok? && !Flag(cfg, "base64") ==> r.value == Leaf(Bytes(store[LookupText(cfg, "secret").value]))
    ensures r.Ok? && Flag(cfg, "base64") ==> Ok(r.value.v.s) == DecodeBase64Text(c, store[LookupText(cfg, "secret").value])
    ensures r.Ok? <==> && LookupText(cfg, "secret").Ok? && LookupText(cfg, "secret").value in store
                       && (Flag(cfg, "base64") ==> DecodeBase64Text(c, store[LookupText(cfg, "secret").value]).Ok?)
  {
    var name :- LookupText(cfg, "secret");
    if name !in store then Err(SecretNotFound(name))
    else if Flag(cfg, "base64") then
      var s :- DecodeBase64Text(c, store[name]);
      Ok(Leaf(Text(s)))
    else Ok(Leaf(Bytes(store[name])))
  }

  /** The provider backends, one variant per kind of tag. The flags tell the
      copies apart: whether keys go through `get_value`, whether the client
      is built inside every fetch, and the secret-manager tag's key name. */
  datatype Backend =
    | Value
    | File(composite: bool)
    | Kubernetes(composite: bool, clientPerFetch: bool)
    | SecretManager(tagKey: string, clientPerFetch: bool)

  /** The provider key a backend resolves. */
  function ProviderKey(b: Backend): string {
    match b
    case Value => "value"
    case File(_) => "file"
    case Kubernetes(_, _) => "kubernetes"
    case SecretManager(k, _) => k
  }

  /** The backend builds one client for the whole pass. */
  predicate PerPassClient(b: Backend) {
    (b.Kubernetes? || b.SecretManager?) && !b.clientPerFetch
  }

  /** The backend builds a fresh client inside every fetch. */
  predicate PerFetchClient(b: Backend) {
    (b.Kubernetes? || b.SecretManager?) && b.clientPerFetch
  }

  /** `provider()`: the per-pass client, or nothing for backends without one. */
  function Provider(b: Backend, env: Env): (s: Session)
    ensures PerPassClient(b) <==> !s.NoSession?
  {
    match b
    case Kubernetes(_, false) => CoreV1Api(env.cluster)
    case SecretManager(_, false) => SecretManagerClient(env.secretManager)
    case _ => NoSession
  }

  /** `fetch(config, provider)`: the concrete value for one tag's configuration. */
  function Fetch(b: Backend, env: Env, cfg: Doc, session: Session): (r: Result<Doc>)
    ensures b.Value? ==> r == Ok(cfg)
    ensures !b.Value? && r.Ok? ==> r.value.Leaf?
  {
    match b
    case Value => Ok(cfg)
    case File(composite) => FetchFile(cfg, env.files, env.codecs, composite)
    case Kubernetes(composite, perFetch) =>
      if perFetch then FromKubernetes(cfg, env.cluster, env.codecs, composite)
      else if session.CoreV1Api? then FromKubernetes(cfg, session.api, env.codecs, composite)
      else Err(TypeMismatch)
    case SecretManager(_, perFetch) =>
      if perFetch then FetchSecret(cfg, env.secretManager, env.codecs)
      else if session.SecretManagerClient? then FetchSecret(cfg, session.store, env.codecs)
      else Err(TypeMismatch)
  }

  /** The fetch every tag of one pass goes through: one backend, one session. */
  function Fetcher(b: Backend, env: Env, session: Session): Doc -> Result<Doc> {
    cfg => Fetch(b, env, cfg, session)
  }

  /** A per-pass client is the world the fetches see: fetching with the
      provider's handle is fetching from the environment itself. */
  lemma SessionSeesEnvironment(b: Backend, env: Env, cfg: Doc)
    ensures Fetch(b, env, cfg, Provider(b, env)) ==
              Fetch(if PerPassClient(b) then b.(clientPerFetch := true) else b, env, cfg, NoSession)
  {
  }
}
