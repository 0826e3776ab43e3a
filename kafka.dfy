/** The Kafka run helper: `from_config` resolves one configuration entry (a
    `kubernetes` tag or an inline `value`), and the keystore, truststore,
    Kafka and schema-registry steps record what they resolve in the global
    `TemplateValues` dictionary and hand keystore material to a script or to
    a binary file. The steps are specified as functions from the old state to
    an outcome; the `Helper` class performs them in place. */
module KafkaHelper {
  import opened Results
  import opened Document
  import opened Engine
  import opened Backends
  import opened Pass
  import KubernetesValues

  const KeystorePassword := "KEYSTORE_PASSWORD"
  const KeyPassword := "KEY_PASSWORD"
  const TruststorePassword := "TRUSTSTORE_PASSWORD"
  const KafkaBootstrapServer := "KAFKA_BOOTSTRAP_SERVER"
  const SchemaRegistryUsername := "SCHEMA_REGISTRY_USERNAME"
  const SchemaRegistryPassword := "SCHEMA_REGISTRY_PASSWORD"
  const SchemaRegistryUrl := "SCHEMA_REGISTRY_URL"

  const KeystoreScript := "./script/keystore.sh"
  const TruststoreScript := "./script/truststore.sh"
  const KeystoreFile := "keystore.p12"
  const TruststoreFile := "truststore.jks"

  /** `from_config`: a `kubernetes` tag is tried before an inline `value`, and
      a configuration with neither is NotImplemented. The helper's Kubernetes
      keys are taken literally. */
  function FromConfig(cfg: Doc, api: Cluster, c: Codecs): (r: Result<Doc>)
    ensures r == Err(NotImplemented) <==>
              if IsTag(cfg, "kubernetes") then !IsTag(cfg.m["kubernetes"], "secret") && !IsTag(cfg.m["kubernetes"], "configmap")
              else !IsTag(cfg, "value")
    ensures !IsTag(cfg, "kubernetes") && IsTag(cfg, "value") ==> r == Ok(cfg.m["value"])
    ensures IsTag(cfg, "kubernetes") && r.Ok? ==> r.value.Leaf?
  {
    if IsTag(cfg, "kubernetes") then FromKubernetes(cfg.m["kubernetes"], api, c, false)
    else if IsTag(cfg, "value") then Ok(cfg.m["value"])
    else Err(NotImplemented)
  }

  /** `from_config(cfg[field])`. */
  function FromConfigAt(cfg: Doc, field: string, api: Cluster, c: Codecs): (r: Result<Doc>)
    ensures !IsTag(cfg, field) ==> r.Err? && r.error != NotImplemented
    ensures IsTag(cfg, field) ==> r == FromConfig(cfg.m[field], api, c)
  {
    var v :- Lookup(cfg, field);
    FromConfig(v, api, c)
  }

  /** A `kubernetes` entry resolved by `from_config` is the value the
      Kubernetes resolution pass puts in place of that entry's container. */
  lemma FromConfigMatchesPass(env: Env, doc: Doc, a: Address)
    requires Resolvable(doc, "kubernetes") && a in Locate(doc, "kubernetes")
    requires AllFetched(doc, "kubernetes", Fetcher(KubernetesValues.K8sModule, env, Provider(KubernetesValues.K8sModule, env)))
    ensures FromConfig(Get(doc, a).value, env.cluster, env.codecs).Ok?
    ensures Get(Resolved(doc, "kubernetes", Fetched(doc, "kubernetes", Fetcher(KubernetesValues.K8sModule, env, Provider(KubernetesValues.K8sModule, env)))), a)
              == Some(FromConfig(Get(doc, a).value, env.cluster, env.codecs).value)
  {
    var v := Fetched(doc, "kubernetes", Fetcher(KubernetesValues.K8sModule, env, Provider(KubernetesValues.K8sModule, env)));
    assert v[a] == FromConfig(Get(doc, a).value, env.cluster, env.codecs).value;
    ResolvedReplaces(doc, "kubernetes", v, a);
  }

  /** An inline `value` entry resolved by `from_config` is what the `Value`
      resolver's fetch returns for the tag's configuration. */
  lemma FromConfigMatchesValue(env: Env, cfg: Doc, session: Session)
    requires IsTag(cfg, "value") && !IsTag(cfg, "kubernetes")
    ensures FromConfig(cfg, env.cluster, env.codecs) == Fetch(Value, env, cfg.m["value"], session)
  {
  }

  /** Something the helper hands on: a script run with its arguments, or a
      binary file written under the target directory. */
  datatype Action = RunScript(script: string, args: seq<Doc>) | WriteBinary(file: string, content: seq<byte>)

  /** `TemplateValues` and the actions performed so far. */
  datatype State = State(values: map<string, Doc>, actions: seq<Action>)

  /** A step's exception, if any, and the state it leaves behind (updates made
      before an exception stay made). */
  datatype Outcome = Outcome(err: Option<Error>, state: State)

  /** `os.path.join(target, name)` for a relative file name. */
  function JoinPath(target: string, name: string): (r: string)
    ensures target == "" ==> r == name
    ensures target != "" ==> r == target + name || r == target + "/" + name
    ensures target != "" && target[|target| - 1] != '/' ==> r == target + "/" + name
  {
    if target == "" || target[|target| - 1] == '/' then target + name else target + "/" + name
  }

  /** The keystore passwords are both present, and equal, or both absent. */
  predicate PasswordsAgree(values: map<string, Doc>) {
    && (KeystorePassword in values <==> KeyPassword in values)
    && (KeystorePassword in values ==> values[KeystorePassword] == values[KeyPassword])
  }

  /** `values` and `values'` agree on every key outside `keys`. */
  ghost predicate SameElsewhere(values: map<string, Doc>, values': map<string, Doc>, keys: set<string>) {
    forall k :: k !in keys ==> (k in values <==> k in values') && (k in values ==> values[k] == values'[k])
  }

  /** `add_to_template_values`. */
  function AddValue(s: State, key: string, v: Doc): State {
    s.(values := s.values[key := v])
  }

  /** `add_keystore_password_template_values`. */
  function AddKeystorePassword(s: State, password: Doc): State {
    AddValue(AddValue(s, KeystorePassword, password), KeyPassword, password)
  }

  /** `add_truststore_password_template_values`. */
  function AddTruststorePassword(s: State, password: Doc): State {
    AddValue(s, TruststorePassword, password)
  }

  /** `generate_keystore`: the fresh password is recorded first, then the
      private key and the certificate are resolved and the keystore script runs. */
  function GenerateKeystoreStep(s: State, cfg: Doc, target: string, password: string, api: Cluster, c: Codecs): Outcome {
    var s1 := AddKeystorePassword(s, Leaf(Text(password)));
    match FromConfigAt(cfg, "client_private_key", api, c)
    case Err(e) => Outcome(Some(e), s1)
    case Ok(key) =>
      match FromConfigAt(cfg, "client_certificate", api, c)
      case Err(e) => Outcome(Some(e), s1)
      case Ok(cert) =>
        Outcome(None, s1.(actions := s1.actions + [RunScript(KeystoreScript, [key, cert, Leaf(Text(password)), Leaf(Text(target))])]))
  }

  /** Writing resolved content to a binary file: only bytes can be written. */
  function WriteStep(s: State, file: string, content: Doc): Outcome {
    if content.Leaf? && content.v.Bytes? then Outcome(None, s.(actions := s.actions + [WriteBinary(file, content.v.bs)]))
    else Outcome(Some(TypeMismatch), s)
  }

  /** `get_keystore`: the configured password is recorded, then the keystore
      content is written to `keystore.p12`. */
  function GetKeystoreStep(s: State, cfg: Doc, target: string, api: Cluster, c: Codecs): Outcome {
    match FromConfigAt(cfg, "password", api, c)
    case Err(e) => Outcome(Some(e), s)
    case Ok(password) =>
      var s1 := AddKeystorePassword(s, password);
      match FromConfigAt(cfg, "keystore", api, c)
      case Err(e) => Outcome(Some(e), s1)
      case Ok(content) => WriteStep(s1, JoinPath(target, KeystoreFile), content)
  }

  /** `keystore`: `generate` is tried before `binary`. */
  function KeystoreStep(s: State, cfg: Doc, target: string, password: string, api: Cluster, c: Codecs): Outcome {
    if IsTag(cfg, "generate") then GenerateKeystoreStep(s, cfg.m["generate"], target, password, api, c)
    else if IsTag(cfg, "binary") then GetKeystoreStep(s, cfg.m["binary"], target, api, c)
    else Outcome(Some(NotImplemented), s)
  }

  /** `generate_truststore`. */
  function GenerateTruststoreStep(s: State, cfg: Doc, target: string, password: string, api: Cluster, c: Codecs): Outcome {
    var s1 := AddTruststorePassword(s, Leaf(Text(password)));
    match FromConfigAt(cfg, "ca_certificate", api, c)
    case Err(e) => Outcome(Some(e), s1)
    case Ok(ca) =>
      Outcome(None, s1.(actions := s1.actions + [RunScript(TruststoreScript, [ca, Leaf(Text(password)), Leaf(Text(target))])]))
  }

  /** `get_truststore`. */
  function GetTruststoreStep(s: State, cfg: Doc, target: string, api: Cluster, c: Codecs): Outcome {
    match FromConfigAt(cfg, "password", api, c)
    case Err(e) => Outcome(Some(e), s)
    case Ok(password) =>
      var s1 := AddTruststorePassword(s, password);
      match FromConfigAt(cfg, "truststore", api, c)
      case Err(e) => Outcome(Some(e), s1)
      case Ok(content) => WriteStep(s1, JoinPath(target, TruststoreFile), content)
  }

  /** `truststore`: `generate` is tried before `binary`. */
  function TruststoreStep(s: State, cfg: Doc, target: string, password: string, api: Cluster, c: Codecs): Outcome {
    if IsTag(cfg, "generate") then GenerateTruststoreStep(s, cfg.m["generate"], target, password, api, c)
    else if IsTag(cfg, "binary") then GetTruststoreStep(s, cfg.m["binary"], target, api, c)
    else Outcome(Some(NotImplemented), s)
  }

  /** `kafka`: the bootstrap server, then the keystore, then the truststore.
      The two passwords are the ones `uuid4` would generate. */
  function KafkaStep(s: State, cfg: Doc, target: string, keystorePassword: string, truststorePassword: string,
                     api: Cluster, c: Codecs): Outcome
  {
    match FromConfigAt(cfg, "bootstrap_server", api, c)
    case Err(e) => Outcome(Some(e), s)
    case Ok(server) => StoresStep(AddValue(s, KafkaBootstrapServer, server), cfg, target, keystorePassword, truststorePassword, api, c)
  }

  /** The rest of `kafka` once the bootstrap server is recorded: the keystore, then the truststore. */
  function StoresStep(s: State, cfg: Doc, target: string, keystorePassword: string, truststorePassword: string,
                      api: Cluster, c: Codecs): Outcome
  {
    match Lookup(cfg, "keystore")
    case Err(e) => Outcome(Some(e), s)
    case Ok(ks) =>
      var o := KeystoreStep(s, ks, target, keystorePassword, api, c);
      if o.err.Some? then o
      else match Lookup(cfg, "truststore")
        case Err(e) => Outcome(Some(e), o.state)
        case Ok(ts) => TruststoreStep(o.state, ts, target, truststorePassword, api, c)
  }

  /** `schema_registry`: user name, password and URL, each recorded as soon as it is resolved. */
  function SchemaRegistryStep(s: State, cfg: Doc, api: Cluster, c: Codecs): Outcome {
    match FromConfigAt(cfg, "user_name", api, c)
    case Err(e) => Outcome(Some(e), s)
    case Ok(user) =>
      var s1 := AddValue(s, SchemaRegistryUsername, user);
      match FromConfigAt(cfg, "password", api, c)
      case Err(e) => Outcome(Some(e), s1)
      case Ok(password) =>
        var s2 := AddValue(s1, SchemaRegistryPassword, password);
        match FromConfigAt(cfg, "url", api, c)
        case Err(e) => Outcome(Some(e), s2)
        case Ok(url) => Outcome(None, AddValue(s2, SchemaRegistryUrl, url))
  }

  /** A key recorded by `add_to_template_values` holds the new value, and no
      other entry changes. */
  lemma AddValueOverwrites(s: State, key: string, v: Doc)
    ensures AddValue(s, key, v).values[key] == v
    ensures SameElsewhere(s.values, AddValue(s, key, v).values, {key})
    ensures AddValue(s, key, v).actions == s.actions
  {
  }

  /** The template keys are distinct. */
  lemma KeysDistinct()
    ensures KeystorePassword != KeyPassword && KeystorePassword != TruststorePassword && KeyPassword != TruststorePassword
    ensures KafkaBootstrapServer !in {KeystorePassword, KeyPassword, TruststorePassword}
  {
    assert KeystorePassword[3] != KeyPassword[3];
    assert KeystorePassword[0] != TruststorePassword[0] && KeyPassword[0] != TruststorePassword[0];
    assert KafkaBootstrapServer[1] != KeystorePassword[1] && KafkaBootstrapServer[0] != TruststorePassword[0];
    assert KafkaBootstrapServer[1] != KeyPassword[1];
  }

  /** A step that adds one action keeps the earlier ones. */
  predicate OneMore(before: seq<Action>, after: seq<Action>) {
    |after| == |before| + 1 && after[..|before|] == before
  }

  /** `generate_keystore` records the generated password under both keys
      before anything can fail; it succeeds exactly when the private key and
      the certificate resolve, and then runs the keystore script on them. */
  lemma GenerateKeystoreEffects(s: State, cfg: Doc, target: string, password: string, api: Cluster, c: Codecs)
    ensures var o := GenerateKeystoreStep(s, cfg, target, password, api, c);
      var key, cert := FromConfigAt(cfg, "client_private_key", api, c), FromConfigAt(cfg, "client_certificate", api, c);
      && o.state.values == s.values[KeystorePassword := Leaf(Text(password))][KeyPassword := Leaf(Text(password))]
      && (o.err.None? <==> key.Ok? && cert.Ok?)
      && (key.Err? ==> o.err == Some(key.error))
      && (key.Ok? && cert.Err? ==> o.err == Some(cert.error))
      && (o.err.Some? ==> o.state.actions == s.actions)
      && (o.err.None? ==>
            o.state.actions == s.actions + [RunScript(KeystoreScript, [key.value, cert.value, Leaf(Text(password)), Leaf(Text(target))])])
  {
  }

  /** `get_keystore` records the configured password under both keys, or
      nothing when it does not resolve; it succeeds exactly when the
      keystore entry resolves to bytes, and then writes those bytes to
      `keystore.p12` under the target directory. */
  lemma GetKeystoreEffects(s: State, cfg: Doc, target: string, api: Cluster, c: Codecs)
    ensures var o := GetKeystoreStep(s, cfg, target, api, c);
      var pw, ks := FromConfigAt(cfg, "password", api, c), FromConfigAt(cfg, "keystore", api, c);
      && (pw.Err? ==> o == Outcome(Some(pw.error), s))
      && (pw.Ok? ==> o.state.values == s.values[KeystorePassword := pw.value][KeyPassword := pw.value])
      && (o.err.None? <==> pw.Ok? && ks.Ok? && ks.value.Leaf? && ks.value.v.Bytes?)
      && (pw.Ok? && ks.Err? ==> o.err == Some(ks.error))
      && (pw.Ok? && ks.Ok? && !(ks.value.Leaf? && ks.value.v.Bytes?) ==> o.err == Some(TypeMismatch))
      && (o.err.Some? ==> o.state.actions == s.actions)
      && (o.err.None? ==> o.state.actions == s.actions + [WriteBinary(JoinPath(target, KeystoreFile), ks.value.v.bs)])
  {
  }

  /** Setting both keystore passwords to one value keeps them agreeing and
      changes no other key. */
  lemma BothPasswords(values: map<string, Doc>, p: Doc)
    ensures PasswordsAgree(values[KeystorePassword := p][KeyPassword := p])
    ensures SameElsewhere(values, values[KeystorePassword := p][KeyPassword := p], {KeystorePassword, KeyPassword})
    ensures KeystorePassword in values[KeystorePassword := p][KeyPassword := p]
  {
    KeysDistinct();
  }

  /** The keystore step touches only the two keystore passwords, keeps them
      equal, and adds at most one action: the script run (generate) or the
      `keystore.p12` write (binary). A configuration with neither is
      NotImplemented and changes nothing. */
  lemma KeystoreEffects(s: State, cfg: Doc, target: string, password: string, api: Cluster, c: Codecs)
    requires PasswordsAgree(s.values)
    ensures var o := KeystoreStep(s, cfg, target, password, api, c);
      && PasswordsAgree(o.state.values)
      && SameElsewhere(s.values, o.state.values, {KeystorePassword, KeyPassword})
      && (o.err.Some? ==> o.state.actions == s.actions)
      && (o.err.None? ==> OneMore(s.actions, o.state.actions))
      && (o.err.None? ==> KeystorePassword in o.state.values)
    ensures var o := KeystoreStep(s, cfg, target, password, api, c);
      && (IsTag(cfg, "generate") ==> KeystorePassword in o.state.values && o.state.values[KeystorePassword] == Leaf(Text(password)))
      && (IsTag(cfg, "generate") && o.err.None? ==>
            && OneMore(s.actions, o.state.actions)
            && o.state.actions[|s.actions|].RunScript? && o.state.actions[|s.actions|].script == KeystoreScript)
      && (!IsTag(cfg, "generate") && IsTag(cfg, "binary") && FromConfigAt(cfg.m["binary"], "password", api, c).Ok? ==>
            KeystorePassword in o.state.values && o.state.values[KeystorePassword] == FromConfigAt(cfg.m["binary"], "password", api, c).value)
      && (!IsTag(cfg, "generate") && IsTag(cfg, "binary") && o.err.None? ==>
            var ks := FromConfigAt(cfg.m["binary"], "keystore", api, c);
            && OneMore(s.actions, o.state.actions)
            && ks.Ok? && ks.value.Leaf? && ks.value.v.Bytes?
            && o.state.actions[|s.actions|] == WriteBinary(JoinPath(target, KeystoreFile), ks.value.v.bs))
      && (!IsTag(cfg, "generate") && !IsTag(cfg, "binary") ==> o == Outcome(Some(NotImplemented), s))
  {
    if IsTag(cfg, "generate") {
      GenerateKeystoreEffects(s, cfg.m["generate"], target, password, api, c);
      BothPasswords(s.values, Leaf(Text(password)));
    } else if IsTag(cfg, "binary") {
      GetKeystoreEffects(s, cfg.m["binary"], target, api, c);
      var o := GetKeystoreStep(s, cfg.m["binary"], target, api, c);
      if o.state.values != s.values {
        BothPasswords(s.values, o.state.values[KeystorePassword]);
      }
    }
  }

  /** `generate_truststore` records the generated password before anything
      can fail; it succeeds exactly when the CA certificate resolves, and then
      runs the truststore script on it. */
  lemma GenerateTruststoreEffects(s: State, cfg: Doc, target: string, password: string, api: Cluster, c: Codecs)
    ensures var o := GenerateTruststoreStep(s, cfg, target, password, api, c);
      var ca := FromConfigAt(cfg, "ca_certificate", api, c);
      && o.state.values == s.values[TruststorePassword := Leaf(Text(password))]
      && (o.err.None? <==> ca.Ok?)
      && (ca.Err? ==> o.err == Some(ca.error) && o.state.actions == s.actions)
      && (ca.Ok? ==> o.state.actions == s.actions + [RunScript(TruststoreScript, [ca.value, Leaf(Text(password)), Leaf(Text(target))])])
  {
  }

  /** `get_truststore` records the configured password, or nothing when it
      does not resolve; it succeeds exactly when the truststore entry
      resolves to bytes, and then writes those bytes to `truststore.jks`
      under the target directory. */
  lemma GetTruststoreEffects(s: State, cfg: Doc, target: string, api: Cluster, c: Codecs)
    ensures var o := GetTruststoreStep(s, cfg, target, api, c);
      var pw, ts := FromConfigAt(cfg, "password", api, c), FromConfigAt(cfg, "truststore", api, c);
      && (pw.Err? ==> o == Outcome(Some(pw.error), s))
      && (pw.Ok? ==> o.state.values == s.values[TruststorePassword := pw.value])
      && (o.err.None? <==> pw.Ok? && ts.Ok? && ts.value.Leaf? && ts.value.v.Bytes?)
      && (pw.Ok? && ts.Err? ==> o.err == Some(ts.error))
      && (pw.Ok? && ts.Ok? && !(ts.value.Leaf? && ts.value.v.Bytes?) ==> o.err == Some(TypeMismatch))
      && (o.err.Some? ==> o.state.actions == s.actions)
      && (o.err.None? ==> o.state.actions == s.actions + [WriteBinary(JoinPath(target, TruststoreFile), ts.value.v.bs)])
  {
  }

  /** The truststore step touches only the truststore password and adds at
      most one action: the script run (generate) or the `truststore.jks`
      write of the configured bytes (binary). A configuration with neither is
      NotImplemented and changes nothing. */
  lemma TruststoreEffects(s: State, cfg: Doc, target: string, password: string, api: Cluster, c: Codecs)
    ensures var o := TruststoreStep(s, cfg, target, password, api, c);
      && SameElsewhere(s.values, o.state.values, {TruststorePassword})
      && (o.err.Some? ==> o.state.actions == s.actions)
      && (o.err.None? ==> OneMore(s.actions, o.state.actions))
      && (o.err.None? ==> TruststorePassword in o.state.values)
    ensures var o := TruststoreStep(s, cfg, target, password, api, c);
      && (IsTag(cfg, "generate") ==> TruststorePassword in o.state.values && o.state.values[TruststorePassword] == Leaf(Text(password)))
      && (IsTag(cfg, "generate") && o.err.None? ==>
            && OneMore(s.actions, o.state.actions)
            && o.state.actions[|s.actions|].RunScript? && o.state.actions[|s.actions|].script == TruststoreScript)
      && (!IsTag(cfg, "generate") && IsTag(cfg, "binary") && FromConfigAt(cfg.m["binary"], "password", api, c).Ok? ==>
            TruststorePassword in o.state.values && o.state.values[TruststorePassword] == FromConfigAt(cfg.m["binary"], "password", api, c).value)
      && (!IsTag(cfg, "generate") && IsTag(cfg, "binary") && o.err.None? ==>
            var ts := FromConfigAt(cfg.m["binary"], "truststore", api, c);
            && OneMore(s.actions, o.state.actions)
            && ts.Ok? && ts.value.Leaf? && ts.value.v.Bytes?
            && o.state.actions[|s.actions|] == WriteBinary(JoinPath(target, TruststoreFile), ts.value.v.bs))
      && (!IsTag(cfg, "generate") && !IsTag(cfg, "binary") ==> o == Outcome(Some(NotImplemented), s))
  {
    if IsTag(cfg, "generate") {
      GenerateTruststoreEffects(s, cfg.m["generate"], target, password, api, c);
    } else if IsTag(cfg, "binary") {
      GetTruststoreEffects(s, cfg.m["binary"], target, api, c);
    }
  }

  /** The keystore and truststore steps together touch only the three
      passwords, keep the keystore passwords equal, and on success add two
      actions. */
  lemma StoresEffects(s: State, cfg: Doc, target: string, kp: string, tp: string, api: Cluster, c: Codecs)
    requires PasswordsAgree(s.values)
    ensures var o := StoresStep(s, cfg, target, kp, tp, api, c);
      && PasswordsAgree(o.state.values)
      && SameElsewhere(s.values, o.state.values, {KeystorePassword, KeyPassword, TruststorePassword})
      && (o.err.None? ==>
            && KeystorePassword in o.state.values && TruststorePassword in o.state.values
            && |o.state.actions| == |s.actions| + 2 && o.state.actions[..|s.actions|] == s.actions)
  {
    var keys := {KeystorePassword, KeyPassword, TruststorePassword};
    if IsTag(cfg, "keystore") {
      var o1 := KeystoreStep(s, cfg.m["keystore"], target, kp, api, c);
      KeystoreEffects(s, cfg.m["keystore"], target, kp, api, c);
      if o1.err.None? && IsTag(cfg, "truststore") {
        var o2 := TruststoreStep(o1.state, cfg.m["truststore"], target, tp, api, c);
        assert StoresStep(s, cfg, target, kp, tp, api, c) == o2;
        TruststoreEffects(o1.state, cfg.m["truststore"], target, tp, api, c);
        KeysDistinct();
        Compose(s.values, o1.state.values, o2.state.values, {KeystorePassword, KeyPassword}, {TruststorePassword});
        assert {KeystorePassword, KeyPassword} + {TruststorePassword} == keys;
        assert o2.state.actions[..|s.actions|] == o1.state.actions[..|s.actions|];
      } else {
        Compose(s.values, o1.state.values, o1.state.values, {KeystorePassword, KeyPassword}, {TruststorePassword});
        assert {KeystorePassword, KeyPassword} + {TruststorePassword} == keys;
      }
    }
  }

  /** Changes confined to `k1`, then to `k2`, are confined to both. */
  lemma Compose(v0: map<string, Doc>, v1: map<string, Doc>, v2: map<string, Doc>, k1: set<string>, k2: set<string>)
    requires SameElsewhere(v0, v1, k1) && SameElsewhere(v1, v2, k2)
    ensures SameElsewhere(v0, v2, k1 + k2)
  {
  }

  /** A successful `kafka` step records the resolved bootstrap server and all
      three passwords, keeps the keystore passwords equal, changes no other
      key and adds exactly two actions: one for the keystore, one for the
      truststore. */
  lemma KafkaEffects(s: State, cfg: Doc, target: string, kp: string, tp: string, api: Cluster, c: Codecs)
    requires PasswordsAgree(s.values)
    ensures var o := KafkaStep(s, cfg, target, kp, tp, api, c);
      && PasswordsAgree(o.state.values)
      && SameElsewhere(s.values, o.state.values, {KafkaBootstrapServer, KeystorePassword, KeyPassword, TruststorePassword})
      && (o.err.None? ==>
            && FromConfigAt(cfg, "bootstrap_server", api, c).Ok?
            && KafkaBootstrapServer in o.state.values
            && o.state.values[KafkaBootstrapServer] == FromConfigAt(cfg, "bootstrap_server", api, c).value
            && KeystorePassword in o.state.values && TruststorePassword in o.state.values
            && |o.state.actions| == |s.actions| + 2 && o.state.actions[..|s.actions|] == s.actions)
  {
    match FromConfigAt(cfg, "bootstrap_server", api, c)
    case Err(_) =>
    case Ok(server) =>
      KeysDistinct();
      var s1 := AddValue(s, KafkaBootstrapServer, server);
      StoresEffects(s1, cfg, target, kp, tp, api, c);
  }

  /** `schema_registry` succeeds exactly when all three entries resolve, and
      then records exactly the three registry keys; a failure leaves every
      other key as it was. */
  lemma SchemaRegistryEffects(s: State, cfg: Doc, api: Cluster, c: Codecs)
    ensures var o := SchemaRegistryStep(s, cfg, api, c);
      && (o.err.None? <==>
            FromConfigAt(cfg, "user_name", api, c).Ok? && FromConfigAt(cfg, "password", api, c).Ok? && FromConfigAt(cfg, "url", api, c).Ok?)
      && (o.err.None? ==> o.state.values == s.values[SchemaRegistryUsername := FromConfigAt(cfg, "user_name", api, c).value]
                                                  [SchemaRegistryPassword := FromConfigAt(cfg, "password", api, c).value]
                                                  [SchemaRegistryUrl := FromConfigAt(cfg, "url", api, c).value])
      && SameElsewhere(s.values, o.state.values, {SchemaRegistryUsername, SchemaRegistryPassword, SchemaRegistryUrl})
      && o.state.actions == s.actions
  {
  }

  /** The helper script's state: the global `TemplateValues` dictionary and
      the actions it has performed, with the module-level Kubernetes client
      and the codecs it was started with. */
  class Helper {
    var templateValues: map<string, Doc>
    var actions: seq<Action>
    const api: Cluster
    const codecs: Codecs

    constructor (api: Cluster, codecs: Codecs)
      ensures templateValues == map[] && actions == []
      ensures this.api == api && this.codecs == codecs
    {
      templateValues := map[];
      actions := [];
      this.api := api;
      this.codecs := codecs;
    }

    ghost function Current(): State
      reads this
    {
      State(templateValues, actions)
    }

    /** `add_to_template_values(key, value)`. */
    method AddToTemplateValues(key: string, value: Doc)
      modifies this
      ensures Current() == AddValue(old(Current()), key, value)
    {
      templateValues := templateValues[key := value];
    }

    /** `add_keystore_password_template_values(password)`. */
    method AddKeystorePasswordTemplateValues(password: Doc)
      modifies this
      ensures Current() == AddKeystorePassword(old(Current()), password)
      ensures PasswordsAgree(templateValues)
    {
      AddToTemplateValues(KeystorePassword, password);
      AddToTemplateValues(KeyPassword, password);
    }

    /** `add_truststore_password_template_values(password)`. */
    method AddTruststorePasswordTemplateValues(password: Doc)
      modifies this
      ensures Current() == AddTruststorePassword(old(Current()), password)
    {
      AddToTemplateValues(TruststorePassword, password);
    }

    /** Write bytes to `file`, or fail on any other content. */
    method WriteBinaryFile(file: string, content: Doc) returns (err: Option<Error>)
      modifies this
      ensures Outcome(err, Current()) == WriteStep(old(Current()), file, content)
    {
      if content.Leaf? && content.v.Bytes? {
        actions := actions + [WriteBinary(file, content.v.bs)];
        err := None;
      } else {
        err := Some(TypeMismatch);
      }
    }

    /** `generate_keystore(cfg, target)` with `password` as the generated one. */
    method GenerateKeystore(cfg: Doc, target: string, password: string) returns (err: Option<Error>)
      modifies this
      ensures Outcome(err, Current()) == GenerateKeystoreStep(old(Current()), cfg, target, password, api, codecs)
    {
      AddKeystorePasswordTemplateValues(Leaf(Text(password)));
      var key := FromConfigAt(cfg, "client_private_key", api, codecs);
      if key.Err? {
        return Some(key.error);
      }
      var cert := FromConfigAt(cfg, "client_certificate", api, codecs);
      if cert.Err? {
        return Some(cert.error);
      }
      actions := actions + [RunScript(KeystoreScript, [key.value, cert.value, Leaf(Text(password)), Leaf(Text(target))])];
      err := None;
    }

    /** `get_keystore(cfg, target)`. */
    method GetKeystore(cfg: Doc, target: string) returns (err: Option<Error>)
      modifies this
      ensures Outcome(err, Current()) == GetKeystoreStep(old(Current()), cfg, target, api, codecs)
    {
      var password := FromConfigAt(cfg, "password", api, codecs);
      if password.Err? {
        return Some(password.error);
      }
      AddKeystorePasswordTemplateValues(password.value);
      var content := FromConfigAt(cfg, "keystore", api, codecs);
      if content.Err? {
        return Some(content.error);
      }
      err := WriteBinaryFile(JoinPath(target, KeystoreFile), content.value);
    }

    /** `keystore(cfg, target)`. */
    method Keystore(cfg: Doc, target: string, password: string) returns (err: Option<Error>)
      modifies this
      ensures Outcome(err, Current()) == KeystoreStep(old(Current()), cfg, target, password, api, codecs)
    {
      if IsTag(cfg, "generate") {
        err := GenerateKeystore(cfg.m["generate"], target, password);
      } else if IsTag(cfg, "binary") {
        err := GetKeystore(cfg.m["binary"], target);
      } else {
        err := Some(NotImplemented);
      }
    }

    /** `generate_truststore(cfg, target)` with `password` as the generated one. */
    method GenerateTruststore(cfg: Doc, target: string, password: string) returns (err: Option<Error>)
      modifies this
      ensures Outcome(err, Current()) == GenerateTruststoreStep(old(Current()), cfg, target, password, api, codecs)
    {
      AddTruststorePasswordTemplateValues(Leaf(Text(password)));
      var ca := FromConfigAt(cfg, "ca_certificate", api, codecs);
      if ca.Err? {
        return Some(ca.error);
      }
      actions := actions + [RunScript(TruststoreScript, [ca.value, Leaf(Text(password)), Leaf(Text(target))])];
      err := None;
    }

    /** `get_truststore(cfg, target)`. */
    method GetTruststore(cfg: Doc, target: string) returns (err: Option<Error>)
      modifies this
      ensures Outcome(err, Current()) == GetTruststoreStep(old(Current()), cfg, target, api, codecs)
    {
      var password := FromConfigAt(cfg, "password", api, codecs);
      if password.Err? {
        return Some(password.error);
      }
      AddTruststorePasswordTemplateValues(password.value);
      var content := FromConfigAt(cfg, "truststore", api, codecs);
      if content.Err? {
        return Some(content.error);
      }
      err := WriteBinaryFile(JoinPath(target, TruststoreFile), content.value);
    }

    /** `truststore(cfg, target)`. */
    method Truststore(cfg: Doc, target: string, password: string) returns (err: Option<Error>)
      modifies this
      ensures Outcome(err, Current()) == TruststoreStep(old(Current()), cfg, target, password, api, codecs)
    {
      if IsTag(cfg, "generate") {
        err := GenerateTruststore(cfg.m["generate"], target, password);
      } else if IsTag(cfg, "binary") {
        err := GetTruststore(cfg.m["binary"], target);
      } else {
        err := Some(NotImplemented);
      }
    }

    /** `kafka(cfg, target)`. */
    method Kafka(cfg: Doc, target: string, keystorePassword: string, truststorePassword: string) returns (err: Option<Error>)
      modifies this
      ensures Outcome(err, Current()) == KafkaStep(old(Current()), cfg, target, keystorePassword, truststorePassword, api, codecs)
      ensures old(PasswordsAgree(templateValues)) ==> PasswordsAgree(templateValues)
    {
      if PasswordsAgree(templateValues) {
        KafkaEffects(Current(), cfg, target, keystorePassword, truststorePassword, api, codecs);
      }
      var server := FromConfigAt(cfg, "bootstrap_server", api, codecs);
      if server.Err? {
        return Some(server.error);
      }
      AddToTemplateValues(KafkaBootstrapServer, server.value);
      var ks := Lookup(cfg, "keystore");
      if ks.Err? {
        return Some(ks.error);
      }
      err := Keystore(ks.value, target, keystorePassword);
      if err.Some? {
        return;
      }
      var ts := Lookup(cfg, "truststore");
      if ts.Err? {
        return Some(ts.error);
      }
      err := Truststore(ts.value, target, truststorePassword);
    }

    /** `schema_registry(cfg)`. */
    method SchemaRegistry(cfg: Doc) returns (err: Option<Error>)
      modifies this
      ensures Outcome(err, Current()) == SchemaRegistryStep(old(Current()), cfg, api, codecs)
    {
      var user := FromConfigAt(cfg, "user_name", api, codecs);
      if user.Err? {
        return Some(user.error);
      }
      AddToTemplateValues(SchemaRegistryUsername, user.value);
      var password := FromConfigAt(cfg, "password", api, codecs);
      if password.Err? {
        return Some(password.error);
      }
      AddToTemplateValues(SchemaRegistryPassword, password.value);
      var url := FromConfigAt(cfg, "url", api, codecs);
      if url.Err? {
        return Some(url.error);
      }
      AddToTemplateValues(SchemaRegistryUrl, url.value);
      err := None;
    }
  }
}
