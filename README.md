# Configuration resolution for the Kafka CLI config helper

This project models the configuration resolution engine of
kafka-cli-config-helper, with proofs. A configuration document is a tree of
maps, lists and scalars. A map may carry a *provider tag*: one of the keys
`value`, `file`, `kubernetes`, `google_cloud_secret_manager` or
`google_secret_manager`. One resolution pass for one provider works in four
steps:

1. It finds every map that holds the provider's key, at any depth (the
   `$..key.parent` query).
2. If there is at least one such map, it builds the provider's client once.
3. It fetches a value for each map from `container[key]` and merges that
   value, unflattened to the map's address, into a `resolved` dictionary.
4. It deletes the key everywhere (`nested_delete`) and deep-merges
   `resolved` into what remains (mergedeep's ADDITIVE strategy).

The repository holds several copies of this pass:

- the resolver classes of `resolvers.py`, with composite `base:field` keys and a per-pass client;
- the older classes of `module.py`, with plain keys and a client per fetch;
- the functions under `module/`.

All of them are modelled as instances of one generic pass (`Pass.Resolve`)
over a closed `Backend` datatype. The Kafka run helper's `from_config`, its
keystore/truststore/Kafka/schema-registry steps that fill `TemplateValues`,
and its schema-version gate are modelled too.

Modules:

- **`Document`**: the document tree, addresses, the locator, key deletion, the deep merge and unflatten.
- **`Properties`**: `get_value` and `property_str_to_dict`.
- **`Backends`**: the fetch functions of every backend, over an abstract environment.
- **`Engine`**: the accumulated tree, the reference rewrite and the theorems about the merged result.
- **`Pass`**: the imperative accumulation loop and the generic pass.
- **`Resolvers`**, **`ModuleClasses`**, **`InlineValues`**, **`KubernetesValues`**, **`FileValues`**, **`SecretManagerValues`**: the copies.
- **`KafkaHelper`**, **`SchemaGate`**: the Kafka run helper.

The external world is a parameter (`Backends.Env`). It holds:

- the Kubernetes cluster, as maps from (name, namespace) to Secret data and ConfigMap objects;
- the secret-manager store, as a map from resource name to payload;
- the file system, as a map from path to bytes;
- the codecs: base64, UTF-8 and text-mode file decoding, as functions.

A client is a `Session` value that captures that world.

Where the code's behaviour differs from what a reader might expect, the
model follows the code:

- **A tag's container is not always replaced outright.** The code deletes
  the key and deep-merges the fetched value into the container's other
  entries. A value that is not a map replaces the whole container, dropping
  its sibling keys (`Engine.ResolvedReplaces`). A map value is merged key by
  key with the siblings (`Engine.ResolvedAtTag`).
- **The class-based secret-manager key is `google_cloud_secret_manager`.**
  Only module/google_secret_manager.py uses `google_secret_manager`.
- **A Kubernetes Secret ignores any `binary` flag.** Only ConfigMaps honour it.
- **No pipeline order.** The program has no orchestrator that runs the
  backends in a fixed order; each pass is modelled on its own.

## Model

| member | source | states |
|---|---|---|
| Document.Locate | resolvers.py:32-33 | an address is in the result exactly when the node there is a map holding the key, at any depth, including the root and maps inside lists |
| Document.Prune | resolvers.py:41 | no map of the result holds the key; a document without the key is returned unchanged; a map keeps all its other keys |
| Document.MergeMaps | resolvers.py:39-41 | ADDITIVE merge: the result has the keys of both maps; a key in only one map keeps that map's value; a key in both gets the deep merge of the two values |
| Document.MergeInto | resolvers.py:41 | merging an empty `resolved` leaves the pruned document as it is |
| Document.Unflatten | resolvers.py:39 | the nested maps built for an address hold the value at exactly that address, under a single top-level key |
| Properties.SplitLines | resolvers.py:138 | `splitlines`: no line of the result contains a line boundary |
| Properties.SplitLinesTerminated | resolvers.py:138 | splitting lines that each end in a newline gives those lines back |
| Properties.Strip | resolvers.py:138 | `strip`: the result is the contiguous middle of the line, with no whitespace at either end and only whitespace removed around it |
| Properties.SplitOnce | resolvers.py:128 | `split(c, 1)`: no split exactly when `c` is absent; otherwise the line is head + c + rest, and the head has no `c` |
| Properties.SplitOnceJoin | resolvers.py:128 | splitting `before + c + after` on its first `c` gives back `before` and `after` when `before` has no `c` |
| Properties.ParseLine | resolvers.py:138 | a retained line parses exactly when its stripped form holds `=`; the key is the text before the first `=`, the value the rest (which may contain `=`) |
| Properties.Entries | resolvers.py:138 | at most one pair per line, and the only error is a malformed line |
| Properties.EntriesOfKept | resolvers.py:138 | the parse succeeds exactly when every retained (non-empty, non-`#`) line holds `=` once stripped; on success pair j is the parse of the j-th retained line, one pair per retained line; otherwise the error names the first retained line without `=`, every retained line before it holding `=` |
| Properties.ToDictKeys | resolvers.py:138 | `dict(pairs)` has exactly the pairs' keys |
| Properties.ToDictLast | resolvers.py:138 | in `dict(pairs)` each key maps to the value of its last pair, so a later duplicate overrides an earlier one |
| Properties.PropertyStrToDict | resolvers.py:137-138 | parsing succeeds exactly when every retained line of `splitlines()` holds `=` once stripped; the only error is a malformed line |
| Properties.ParsedBlob | resolvers.py:137-138 | a parsed blob has one pair per retained line, pair j being the parse of the j-th retained line; its keys are exactly the pairs' keys, and each key holds its last pair's value |
| Properties.EntriesOfLines | resolvers.py:138 | the lines written for well-formed pairs parse back to the same pairs, in order |
| Properties.PropertyRoundTrip | resolvers.py:137-138 | writing well-formed pairs one per line and parsing the blob gives their dictionary, a later duplicate overriding an earlier one |
| Properties.IgnoredLineSkipped | resolvers.py:138 | inserting an empty or `#` line anywhere leaves the parsed entries unchanged |
| Properties.GetValue | resolvers.py:127-134 | without `:` the result is the extractor's; with `:` a success is a text value, and an error is the extractor's own or a type, parse or missing-field error |
| Properties.GetValueComposite | resolvers.py:127-134 | `base:field` reads `base` and returns `field` of the parsed blob, or KeyNotFound(field) when the blob lacks it |
| Backends.B64Decode | resolvers.py:105 | succeeds exactly when the codec decodes, with the decoded bytes |
| Backends.DecodeBase64Text | module.py:91-92 | base64 then UTF-8: succeeds exactly when both decode, with the decoded text |
| Backends.DecodeBase64TextRoundTrip | module.py:91-92 | text encoded as UTF-8 then base64 decodes back to itself |
| Backends.ReadSecret | resolvers.py:99 | found exactly when the cluster has that Secret, with its data |
| Backends.ReadConfigMap | resolvers.py:103 | found exactly when the cluster has that ConfigMap, with its object |
| Backends.SecretEntry | resolvers.py:100 | a Secret entry is the base64- then UTF-8-decoded text of `data[key]`; a present entry succeeds exactly when it decodes, and otherwise fails with DecodeFailure; a missing key is KeyNotFound |
| Backends.ConfigMapEntry | resolvers.py:107 | found exactly when the text data holds the key, and then returned unmodified |
| Backends.ExtractKey | resolvers.py:68 | with plain keys, or a key without `:`, the extractor is applied to the key itself |
| Backends.FromK8sSecret | resolvers.py:98-100 | a Secret reference never yields NotImplemented |
| Backends.FromK8sConfigMap | resolvers.py:102-107 | a ConfigMap reference never yields NotImplemented; a success needs `name`, `namespace` and `key` and the ConfigMap to exist; with `binary` set the read succeeds exactly when `binary_data` holds `key` and its text base64-decodes, and a success is that decoding; without it (and for keys without `:` where keys are composite) the result is `data[key]` unmodified, or KeyNotFound |
| Backends.FromKubernetes | module/kubernetes.py:45-51 | `secret` takes precedence over `configmap`; NotImplemented exactly when neither is present |
| Backends.SecretRoundTrip | module/kubernetes.py:31-34 | a Secret entry holding encoded text resolves back to that text |
| Backends.BinaryBypassesGetValue | resolvers.py:104-105 | a binary ConfigMap entry is the same with or without composite keys |
| Backends.ReadFile | resolvers.py:63-65 | a read succeeds only for an existing path, and there always in binary mode and in text mode exactly when the bytes decode; binary mode returns the raw bytes, text mode the decoded text; a missing path is FileNotFound |
| Backends.FetchFile | module/file.py:30-33 | binary mode exactly when `binary` is present and truthy: a success is bytes exactly then; with plain paths the result is exactly the read of the file at `path`, raw bytes in binary mode and its decoded text otherwise |
| Backends.FetchSecret | module/google_secret_manager.py:33-38 | the fetch succeeds exactly when `secret` names a stored secret and, with `base64` truthy, its payload decodes; the result is text exactly when `base64` is present and truthy (the decoded payload); otherwise it is the raw payload bytes |
| Backends.Provider | resolvers.py:37 | a client is built by the backends with a per-pass client, and only by them |
| Backends.Fetch | resolvers.py:39 | `Value.fetch` returns its configuration unchanged; every other backend's success is a scalar |
| Backends.SessionSeesEnvironment | module.py:71-73 | fetching through the per-pass client equals fetching with a client built inside the fetch |
| Engine.TreeAdd | resolvers.py:39-40 | merging one more unflattened value into the tree of the values so far gives the tree with that address added, for any order of the matches |
| Engine.Equiv | resolvers.py:41 | for a map that is not itself a tag, pruning then merging the accumulated tree equals the reference rewrite |
| Engine.ResolvedIsRewrite | resolvers.py:36-41 | the pass's result is the reference rewrite: each tag container becomes its other entries merged with its fetched value, and nothing else changes |
| Engine.RewriteAtTag | resolvers.py:39-41 | in the rewrite, every tag's address holds its remaining entries deep-merged with its fetched value |
| Engine.RewriteElsewhere | resolvers.py:39-41 | in the rewrite, an address neither above nor below any tag keeps its node |
| Engine.RewriteKeyFree | resolvers.py:41 | when no fetched value holds the key, the rewrite holds it nowhere |
| Engine.ResolvedNoTags | resolvers.py:42-43 | with no match, the result is the document itself |
| Engine.ResolvedAtTag | resolvers.py:39-41 | each tag's address ends up holding its remaining entries deep-merged with its fetched value |
| Engine.ResolvedReplaces | resolvers.py:39-41 | a fetched value that is not a map replaces its whole container, sibling keys included |
| Engine.ResolvedElsewhere | resolvers.py:39-41 | addresses neither above nor below a tag are untouched |
| Engine.ResolvedKeyFree | resolvers.py:41 | when no fetched value holds the key, no map of the result holds it |
| Pass.Fetched | resolvers.py:39 | the fetched values are indexed by exactly the matched addresses |
| Pass.Accumulate | resolvers.py:38-40 | the loop succeeds exactly when every tag's fetch succeeds, and then `resolved` is the tree of all fetched values; an error is some tag's fetch error; it makes one fetch per match on success, at least one and at most that many on failure |
| Pass.Merge | resolvers.py:39-40 | one iteration keeps the loop's state: the address moves from the matches to fetch to the fetched ones, and `resolved` stays the tree of the fetched values |
| Pass.LeavesReplace | resolvers.py:39-41 | scalar fetched values each replace their container, and no key is left |
| Pass.Resolve | resolvers.py:31-43 | no match: the input unchanged, no client, no fetch; otherwise success exactly when every fetch succeeds, and the result is the pruned document merged with the tree of the fetched values, which are indexed by exactly the matches and are each match's own fetch; an error is some match's fetch error; one client per pass, or one per fetch, or none, by backend; one fetch per match on success |
| Pass.ResolveTags | resolvers.py:31-43 | the pass read tag by tag: a non-Value backend leaves no key and puts each fetched value at its tag's address; addresses away from the tags are untouched; the same success condition, error and counts as Pass.Resolve |
| Pass.AtTags | resolvers.py:39-41 | for fetched values that are the matches' own fetches, the merged result holds each scalar value at its tag's address, no key when the backend is not Value, and every address away from the tags unchanged |
| Resolvers.ResolverKeys | resolvers.py:46-117 | the four classes' keys, and that only Kubernetes and the secret manager build a client, once per pass |
| Resolvers.FileCompositeKey | resolvers.py:62-68 | a `path:field` file tag reads the file at `path` as text and returns `field` of its properties, or KeyNotFound |
| Resolvers.SecretCompositeKey | resolvers.py:98-100 | an `entry:field` Secret key decodes the entry and returns `field` of its properties, or KeyNotFound |
| ModuleClasses.Resolve | module.py:29-40 | no match: the input unchanged with no client; success exactly when every fetch succeeds; one client per fetch for Kubernetes and the secret manager; no key left and each fetched value at its tag's address |
| ModuleClasses.KubernetesAgrees | module.py:71-99 | for keys without `:`, module.py's Kubernetes fetch equals the resolvers.py one |
| ModuleClasses.SecretAgrees | module.py:89-92 | for a key without `:`, plain and composite Secret reads agree |
| ModuleClasses.ConfigMapAgrees | module.py:94-99 | for a key without `:`, plain and composite ConfigMap reads agree |
| ModuleClasses.FileAgrees | module.py:59-62 | for a path without `:`, module.py's file read equals the resolvers.py one |
| ModuleClasses.FileColonPath | module.py:59-62 | module.py opens a `base:field` path whole, so it is FileNotFound when no file has that name |
| ModuleClasses.SecretManagerAgrees | module.py:108-114 | the secret-manager fetches of module.py and resolvers.py agree |
| InlineValues.Literals | module/value.py:8-9 | the literals are indexed by exactly the `value` tags' addresses |
| InlineValues.ResolveInlineValues | module/value.py:7-14 | the result is the merged rewrite with each tag's literal; no tag leaves the document unchanged; each tag's address holds its remaining entries merged with its literal; other addresses are untouched |
| InlineValues.ScalarLiteralReplaces | module/value.py:8-9 | a literal that is not a map replaces its container |
| InlineValues.InlineKeyFree | module/value.py:14 | when no literal holds `value` itself, no `value` key remains |
| InlineValues.InlineIsValueResolver | resolvers.py:52-53 | the `Value` class's fetches all succeed and are exactly the literals |
| KubernetesValues.ResolveK8sValues | module/kubernetes.py:15-28 | no match: unchanged with no client and no fetch; at most one fetch per match, exactly one on success; otherwise exactly one client; success exactly when every `from_kubernetes` succeeds; NotImplemented only from a tag with neither `secret` nor `configmap`; no `kubernetes` key remains; each tag's address holds its fetched value; other addresses untouched |
| FileValues.ResolveFileValues | module/file.py:16-27 | no match: unchanged and no file read; at most one read per match, exactly one on success; success exactly when every `fetch_file` succeeds; no `file` key remains; each tag's address holds its content, bytes exactly when `binary` is set; other addresses untouched |
| SecretManagerValues.ResolveSecretManagerValues | module/google_secret_manager.py:18-30 | no match: unchanged with no client and no fetch; at most one fetch per match, exactly one on success; otherwise exactly one client; success exactly when every `fetch_secret` succeeds; no `google_secret_manager` key remains; each tag's address holds its secret, text exactly when `base64` is set |
| KafkaHelper.FromConfig | kafka_run_helper.py:124-130 | `kubernetes` is tried before `value`; a `value` literal is returned unchanged; NotImplemented exactly when neither applies or the Kubernetes reference has neither `secret` nor `configmap` |
| KafkaHelper.FromConfigAt | kafka_run_helper.py:155 | a missing field is a lookup error, never NotImplemented; otherwise `from_config` of the field |
| KafkaHelper.FromConfigMatchesPass | kafka_run_helper.py:115-130 | `from_config` of a `kubernetes` container is the value the Kubernetes pass puts at that container's address |
| KafkaHelper.FromConfigMatchesValue | kafka_run_helper.py:127-128 | `from_config` of a `value` container is the `Value` fetch of its literal |
| KafkaHelper.JoinPath | kafka_run_helper.py:166 | `os.path.join` inserts one `/` unless the directory is empty or already ends in `/` |
| KafkaHelper.AddValueOverwrites | kafka_run_helper.py:82-83 | the key holds the new value, whatever it held before, and no other entry changes |
| KafkaHelper.GenerateKeystoreEffects | kafka_run_helper.py:150-161 | `generate_keystore` sets both keystore passwords to the generated one, whatever happens next, and changes no other value; it succeeds exactly when the private key and the certificate resolve, failing with the first error; on success it appends exactly the keystore script run on the key, the certificate, the password and the target directory, and on failure no action |
| KafkaHelper.GetKeystoreEffects | kafka_run_helper.py:164-166 | an unresolved password fails with nothing changed; otherwise both keystore passwords become the configured password; it succeeds exactly when the `keystore` entry resolves to bytes (its error, or TypeMismatch, otherwise), and then appends exactly the write of those bytes to `keystore.p12` under the target directory |
| KafkaHelper.KeystoreEffects | kafka_run_helper.py:145-176 | `generate` is tried before `binary`, and neither is NotImplemented with nothing changed; only the two keystore passwords change, and they stay equal; `generate` records the generated password and `binary` the configured one; success adds exactly one action, the keystore script run (generate) or the write of the configured bytes to `keystore.p12` (binary); failure adds none |
| KafkaHelper.GenerateTruststoreEffects | kafka_run_helper.py:183-193 | `generate_truststore` sets the truststore password to the generated one and changes no other value; it succeeds exactly when the CA certificate resolves, and then appends exactly the truststore script run on it, the password and the target directory |
| KafkaHelper.GetTruststoreEffects | kafka_run_helper.py:196-198 | an unresolved password fails with nothing changed; otherwise the truststore password becomes the configured one; it succeeds exactly when the `truststore` entry resolves to bytes, and then appends exactly the write of those bytes to `truststore.jks` under the target directory |
| KafkaHelper.TruststoreEffects | kafka_run_helper.py:179-208 | `generate` is tried before `binary`, and neither is NotImplemented with nothing changed; only the truststore password changes: the generated one, or the configured one; success adds exactly one action, the truststore script run (generate) or the write of the configured bytes to `truststore.jks` (binary); failure adds none |
| KafkaHelper.StoresEffects | kafka_run_helper.py:211-214 | the keystore then truststore steps touch only the three passwords and keep the keystore passwords equal; on success both passwords are recorded and exactly two actions are appended |
| KafkaHelper.KafkaEffects | kafka_run_helper.py:211-214 | success records the resolved bootstrap server and all three passwords, keeps the keystore passwords equal, changes no other key and adds exactly two actions |
| KafkaHelper.SchemaRegistryEffects | kafka_run_helper.py:217-221 | success exactly when all three entries resolve, and then exactly the three registry keys are set to them; no other key and no action changes |
| KafkaHelper.Helper.constructor | kafka_run_helper.py:19 | `TemplateValues` starts empty, with no action performed |
| KafkaHelper.Helper.AddToTemplateValues | kafka_run_helper.py:82-83 | the dictionary gains or overwrites that one key |
| KafkaHelper.Helper.AddKeystorePasswordTemplateValues | kafka_run_helper.py:145-147 | both keystore passwords are set to the same value |
| KafkaHelper.Helper.AddTruststorePasswordTemplateValues | kafka_run_helper.py:179-180 | the truststore password is set |
| KafkaHelper.Helper.WriteBinaryFile | kafka_run_helper.py:133-136 | bytes are written; other content is a TypeError |
| KafkaHelper.Helper.GenerateKeystore | kafka_run_helper.py:150-161 | the new state is the generate-keystore step of the old one: the password is recorded first, then the script runs with the resolved key and certificate |
| KafkaHelper.Helper.GetKeystore | kafka_run_helper.py:164-166 | the new state is the get-keystore step: the password is recorded, then the keystore is written to `keystore.p12` |
| KafkaHelper.Helper.Keystore | kafka_run_helper.py:169-176 | the new state is the keystore dispatch step of the old one |
| KafkaHelper.Helper.GenerateTruststore | kafka_run_helper.py:183-193 | the new state is the generate-truststore step of the old one |
| KafkaHelper.Helper.GetTruststore | kafka_run_helper.py:196-198 | the new state is the get-truststore step: the password is recorded, then the truststore is written to `truststore.jks` |
| KafkaHelper.Helper.Truststore | kafka_run_helper.py:201-208 | the new state is the truststore dispatch step of the old one |
| KafkaHelper.Helper.Kafka | kafka_run_helper.py:211-214 | the new state is the Kafka step of the old one, and equal keystore passwords stay equal |
| KafkaHelper.Helper.SchemaRegistry | kafka_run_helper.py:217-221 | the new state is the schema-registry step of the old one |
| SchemaGate.Split | kafka_run_helper.py:225-226 | `split('.')`: no part holds a dot, and joining the parts with dots gives the input |
| SchemaGate.SplitJoin | kafka_run_helper.py:225-226 | splitting dot-joined parts that hold no dot gives the parts back |
| SchemaGate.Gate | kafka_run_helper.py:224-230 | against any supported version: a pass is `True`; when the supported version has three parts, a failure is a BadVersion or an Unsupported version, and always Unsupported (the AssertionError) for a three-part version |
| SchemaGate.SchemaValidation | kafka_run_helper.py:224-230 | a pass is `True`; a failure is a bad part count or an unsupported version, and always Unsupported (the AssertionError) for a three-part version |
| SchemaGate.SupportedParts | kafka_run_helper.py:17 | the supported version `1.0.0` has parts `1`, `0`, `0` |
| SchemaGate.AcceptedVersions | kafka_run_helper.py:224-230 | `major.minor.bugfix` is accepted exactly when the major is `1` and the minor sorts no later than `0` as text: empty, `0`, or starting below the digit `0` (so `1.00.0` is refused) |
| SchemaGate.NotAfterZero | kafka_run_helper.py:227 | the minors that do not sort after `0` as text are exactly the empty one, `0`, and those starting below the digit `0` |
| SchemaGate.WrongPartCount | kafka_run_helper.py:226 | a version that does not split into three parts fails to unpack |
| SchemaGate.BugfixIgnored | kafka_run_helper.py:226-227 | the bugfix part never changes whether a version is accepted |
| SchemaGate.GateOnParts | kafka_run_helper.py:225-227 | for two three-part versions, acceptance holds exactly when the majors are equal and the configured minor does not sort after the supported one as text |
| SchemaGate.MinorComparedAsText | kafka_run_helper.py:227 | minors compare as text, not as numbers: a configured minor whose first character sorts later is refused whatever its length, so `1.9.0` is refused against `1.10.0` |

## Left out

- Pass.Resolve: requires a *resolvable* document (`Engine.Resolvable`):
  - the root is not itself a tag;
  - every tag is reached through map keys only;
  - no tag sits inside another tag's container.
  The source also runs on list-index addresses and nested tags. There, the
  result depends on how jsonpath renders paths as strings, how `unflatten`
  parses them, and on the order of the matches.
- Pass.ResolveTags: the same restriction as Pass.Resolve.
- Pass.AtTags: the same restriction as Pass.Resolve.
- Pass.Merge: the same restriction as Pass.Resolve.
- Pass.Accumulate: the same restriction as Pass.Resolve.
- ModuleClasses.Resolve: the same restriction as Pass.Resolve.
- InlineValues.ResolveInlineValues: the same restriction as Pass.Resolve.
- KubernetesValues.ResolveK8sValues: the same restriction as Pass.Resolve.
- FileValues.ResolveFileValues: the same restriction as Pass.Resolve.
- SecretManagerValues.ResolveSecretManagerValues: the same restriction as Pass.Resolve.
- Pass.Resolve: `Provider` and `Fetch` are functions, so the client count is kept beside the fetch count (one per pass, or one per fetch) rather than counted where a client object is built.
- Pass.Accumulate: the matches are taken in any order. On failure the model says only that the error is some failing tag's error. Which tag fails first depends on jsonpath's traversal order, which is not modelled.
- The jsonpath `full_path` strings and `unflatten`'s string parsing are replaced by key sequences. Keys that contain dots or brackets, which those strings would split, are not modelled.
- Python dict order is not modelled: maps are unordered.
- Document.Prune: `nested_delete` is modelled as an unconditional delete of the key at every depth. The nested_lookup library deletes the key only where its value is truthy, so a tag whose value is falsy (an empty map, list or string, `0`, `False`, `None`) stays in the library's result. For such tags the model's KeyFree results (Document.Prune, Engine.ResolvedKeyFree, InlineValues.InlineKeyFree, and the no-key clauses of the passes) are stronger than the program's behaviour; a `value: {}` literal, for example, survives the real pass.
- Networking is replaced by the `Env` parameter:
  - Kubernetes `load_kube_config`/`CoreV1Api` and `SecretManagerServiceClient` are not modelled; a client is a snapshot of that state;
  - API errors are reduced to "not found";
  - permissions, timeouts and retries are not modelled.
- Base64, UTF-8 and text-mode reads (with their newline translation) are function parameters. They are not defined here.
- A ConfigMap whose `binary_data` or `data` is `None`, and a Secret whose `data` is `None`, are modelled with an empty map. A lookup there is then KeyNotFound; Python raises TypeError when subscripting `None`.
- Python's `in` on a configuration that is not a map is treated as "absent". This covers substring tests on strings and membership in lists.
- `get_value` on a bytes blob, as from a binary-mode file, is TypeMismatch in the model. Python also raises TypeError, except on an empty blob, where it raises KeyError.
- `KafkaHelper.Helper`: the rest of the script's plumbing is not modelled:
  - the progress bar, the `task` and `log_shell_out` decorators, and logging;
  - `load_config` with pykwalify validation, and `write_templates` with Jinja rendering;
  - `target_directory`/`make_target_directory` and `main`.
- `uuid4` passwords are parameters.
- The keystore and truststore scripts are recorded as actions, not run. Their exit status is only logged by the source, so it is ignored.
- KafkaHelper.Helper.WriteBinaryFile: opening the file for writing before a TypeError leaves an empty file behind; the model records no write.
- KafkaHelper.FromConfig: like the helper's own `from_kubernetes`, the helper takes Kubernetes keys literally, never through `get_value`. The `v1` client is created at import time and is a field of `Helper`.
- The program has no orchestrator that runs the backends in a fixed order, so no sequence of passes is modelled.
