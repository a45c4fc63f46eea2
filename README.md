# Secrets Store CSI driver: reconcilers and their utilities, in Dafny

This project models the secret-rotation reconcilers of the Secrets Store CSI
driver and the utilities they share. In every variant, a reconciler does the
same three things:

- it reads secret provider classes, or their per-pod bindings, from the cluster;
- it assembles a provider payload from a class, from the pods the class
  mounts into, and, when pod identity is turned off, from the pod's
  node-publish secret;
- it builds the argument list of the provider binary.

Four Go files are modelled, each in a module of its own:

| module | file | what it holds |
|---|---|---|
| `SecretsStore` (`secrets_store.dfy`) | `pkg/secrets-store/utils.go` | Windows path normalisation; the provider binary path; the pod-UID regular expression, written as an explicit backtracking search; mounted-file joining; validated field lookup on unstructured objects; the class search; the binding object; the `status.objects` initialisation; `GetK8sSecret` |
| `Reconciler` (`reconciler.dfy`) | `pkg/reconciler/reconciler.go` | target path derived from the pod UID; stops at the first class whose payload cannot be built |
| `RotationReconciler` (`rotation_reconciler.dfy`) | `pkg/rotation_reconciler/reconciler.go` | a loop over binding objects, filtered by driver name |
| `SecretsStoreReconciler` (`secrets_store_reconciler.dfy`) | `cmd/secrets-store-reconciler/main.go` | mount path and file permission; every class is processed |

Four shared modules support them:

- `Wrappers`: `Option` and `Result`, plus `Reached` and `Collect`. `Collect` gives the result list of a loop that stops at its first failure. `Reached` says which elements such a loop reads.
- `Unstructured`: the `map[string]interface{}` objects and the apimachinery accessors `NestedString`, `NestedStringMap`, `NestedSlice` and `SetNestedField`.
- `Cluster`: the typed records (pod, volume and mount, secret, class) and the cluster as plain data.
- `Provider`: the JSON-shaped `Parameters` and `Secrets`, their encoding and decoding, the provider path and argument list, and the re-keying of a secret's byte data.

## How the model works

**The cluster.** The cluster is a value. It maps each namespaced name to the
outcome of a `Get`: found, client unavailable, or failed with any other API
error. A name that is absent means "not found".

**Outside calls.** The listing calls (`ListSecretProviderClasses`, the binding
listing and the `List` inside `GetSecretProviderItem`) are parameters holding
their result. So are the directory read of `getMountedFiles`, the YAML parsers
of `initializeObjectsInStatus` and the `Create` outcome of the binding.

**The provider run.** The provider sub-process is a `ProviderCall -> bool`
parameter. Its outcome is logged and nothing depends on it. The model records
three things about each invocation: the binary, the argument list, and the
words that reach the log.

**Payloads.** Each driver's `Payload` is a class whose fields its methods set
in place. Each such method is specified by a function on the payload's value
(`PayloadValue`), which returns the new payload and the error (`Outcome`). The
properties are proved about those functions.

**Panics.** Go panics have no model. They are stated as preconditions:

- a `byPod` entry that is not a map with string `name` and `namespace` (`PodEntry`);
- a CSI volume without a node-publish secret reference on the pod of such an entry (`FetchedPodHasCsiRefs`; in `pkg/reconciler` only with `usePodIdentity` "false");
- in the rotation reconciler, the same on a binding's pod when pod identity is off (`BindingReady`);
- in `initializeObjectsInStatus`, a parsed entry holding a YAML integer or a nested map, which `runtime.DeepCopyJSONValue` cannot copy (`ParsedEntriesCopyable`), and a nil client reaching `Update` (`clientOk`).

Each of these is required only of what a loop reads before it returns:
- the `byPod` entries up to and including the first whose step fails (`EntryReady`, `EntriesReady`, `TrackedReady`);
- in `pkg/reconciler`, the classes up to and including the first whose payload does not build (`BuildReady`, `ItemsReady`);
- in the rotation reconciler, the bindings up to and including the first that ends the tick (`TickReady`);
- in `cmd`, every listed class, since `main` never stops early (`ItemReady`).

A class whose `spec.parameters` or `spec.provider` cannot be read asks nothing of its pods.

**Where the code departs from the intended design.** The model follows
the code, with one exception. `GetK8sSecret` drops its lookup error, and
the three drivers use the corrected lookup (see "## Findings"). The code as
written is modelled beside it, in `SecretsStore.GetK8sSecretAsWritten` and
`Provider.CredentialsFromSecretAsWritten`. Everywhere else the model keeps
the code's behaviour:

- Redaction of the provider arguments is partial. `pkg/reconciler` dumps the
  whole payload, including the client secret, and `cmd` dumps the whole
  argument list.
- No provider timeout is enforced.
- No version state is read back or merged.
- The target path in `pkg/reconciler` is built from the last CSI volume of
  any driver.
- The `cmd` permission becomes 0644 as soon as any matching mount is
  read-only. It is not tied to the last matching mount.

**Intent chosen where the rotation reconciler does not compile.**
`pkg/rotation_reconciler/reconciler.go` does not compile as written, so the
model takes the evident intent at each point:

- Lines 76-78 call a lower-case `getStringFromObjectSpec`, which does not
  exist. The fields are read with `GetStringFromObjectStatus`, since the
  binding writes them under `status` (`pkg/secrets-store/utils.go:246-253`).
- Line 94 redeclares with `:=` a field it cannot redeclare. The current
  objects are taken to be the class's status objects.
- Line 104 compares a string with `nil`. Only the test `== ""` is kept.
- Line 111 uses `secretRefName` outside its scope, and calls `buildK8SecretsPayload`, a misspelling of `buildK8sSecretsPayload` (line 172).
  The secrets are added only inside the `usePodIdentity == "false"` branch.
- Line 113 calls `log.Errof`. It is a log call and has no model.
- Line 133 reads `payload.Paramters`. `Parameters` is used.
- Line 200 returns `string, nil`. The function returns `secretsName`.

Some other points about that file:

- The unused loop index `i` and client `c`, the missing `spew` import and
  the unused `currentObjsStr` have no effect on the model.
- `spc.Spec.Parameters` is a string map, so it is decoded by key.
- The class's type (`v1alpha1`) is not part of this model.

## Model

| member | source | states |
|---|---|---|
| Cluster.LastCsiVolume | pkg/reconciler/reconciler.go:206-215 | the index of the last volume with a CSI source (of the given driver, when one is given), with no later such volume; none exactly when no volume qualifies |
| Cluster.LastCsiVolumeExtend | cmd/secrets-store-reconciler/main.go:202-208 | one more volume in the scan: its index if it qualifies, else the earlier choice |
| Cluster.LastCsiVolumeConcat | pkg/rotation_reconciler/reconciler.go:193-199 | the choice over `a + b` is the choice in `b` (shifted by the length of `a`) if there is one, else the choice in `a` |
| Cluster.LastCsiVolumeInsert | pkg/rotation_reconciler/reconciler.go:194-196 | inserting a volume that does not qualify anywhere leaves the chosen volume the same (its index shifted past the insertion point) |
| Cluster.CsiRefsPresentInsert | pkg/rotation_reconciler/reconciler.go:198 | inserting a volume that does not qualify keeps every qualifying volume's secret reference readable |
| Provider.DecodeSecretsFromZero | pkg/reconciler/reconciler.go:169 | from empty credentials, `clientid` and `clientsecret` are the map's values or ""; an empty map changes nothing |
| Provider.JsonObject | pkg/reconciler/reconciler.go:119 | a JSON object rendering starts with `{` |
| Provider.EncodeParameters | pkg/reconciler/reconciler.go:119 | the marshalled parameters start with `{` |
| Provider.EncodeSecrets | pkg/reconciler/reconciler.go:124 | the marshalled secrets start with `{` |
| Provider.NatToDecimal | cmd/secrets-store-reconciler/main.go:123 | the JSON rendering of a natural number is non-empty and all decimal digits |
| Provider.DecimalRoundTrip | cmd/secrets-store-reconciler/main.go:123 | reading the rendering back as a decimal number gives the number |
| Provider.PermissionRendering | cmd/secrets-store-reconciler/main.go:123-134 | the permission 420 renders as "420" and 0 as "0" |
| Provider.InfoLineRedacts | pkg/reconciler/reconciler.go:130-137 | the info line is the binary, the redaction marker and `args[4:]`; the attributes and secrets appear in it only if equal to the target path or the permission |
| Provider.BytesToString | pkg/rotation_reconciler/reconciler.go:179 | `string(v)`: same length, each character the code of its byte |
| Provider.SecretDataToStrings | pkg/rotation_reconciler/reconciler.go:173-180 | the string map has exactly the secret data's keys, each value its bytes read as a string |
| Provider.CredentialsFromSecret | pkg/rotation_reconciler/reconciler.go:172-189 | over the corrected secret lookup: succeeds exactly when the secret is found; then `clientid`/`clientsecret` are the data's values as strings, or the old ones when the key is absent; otherwise the lookup error is returned |
| Provider.CredentialsFromSecretAsWritten | pkg/rotation_reconciler/reconciler.go:172-189 | over the lookup as written: fails exactly when no client can be made; a found secret gives the corrected result; any other failed lookup leaves the credentials unchanged with no error |
| Provider.CredentialsMissingSecret | pkg/secrets-store/utils.go:286-293 | for a missing secret the credentials as written are unchanged and no error is seen, while the corrected ones report "not found" |
| SecretsStore.ReplaceSlashes | pkg/secrets-store/utils.go:68 | same length, every `/` replaced by `\` and every other character kept |
| SecretsStore.NormalizeWindowsPath | pkg/secrets-store/utils.go:67-73 | no `/` in the result; `c:` is prepended exactly when the path starts with `/` or `\`, the length is kept otherwise; the tail is the path with slashes replaced |
| SecretsStore.ReplaceSlashesNoSlash | pkg/secrets-store/utils.go:68 | a path without `/` is left unchanged |
| SecretsStore.NormalizeWindowsPathIdempotent | pkg/secrets-store/utils.go:67-73 | normalising twice is normalising once |
| SecretsStore.GetProviderPath | pkg/secrets-store/utils.go:60-65 | off Windows, `vol/name/provider-name`; on Windows, no `/` and a `.exe` ending |
| SecretsStore.GetMountedFiles | pkg/secrets-store/utils.go:76-95 | a directory read error becomes an internal error; otherwise one path per entry, in order, each `targetPath + sep + name` |
| SecretsStore.SepRunEnd | pkg/secrets-store/utils.go:99 | the greedy separator run from `i` ends at the first non-separator |
| SecretsStore.SepRunEndAt | pkg/secrets-store/utils.go:99 | any maximal run of separators from `i` ends where the greedy run ends |
| SecretsStore.SepRunEndCovers | pkg/secrets-store/utils.go:99 | the greedy run covers every run of separators from `i` |
| SecretsStore.LazyGroupEnd | pkg/secrets-store/utils.go:99 | the lazy group `(.+?)` ends at the first position after `k`, with no newline on the way, where a separator run and `volumes` follow; no earlier position qualifies |
| SecretsStore.GroupFrom | pkg/secrets-store/utils.go:99 | backing off the second separator run yields a group with a separator tail, without newlines |
| SecretsStore.MatchAt | pkg/secrets-store/utils.go:99 | a match at `i` is an instance of the whole pattern starting at `i` |
| SecretsStore.FindFrom | pkg/secrets-store/utils.go:99-100 | a found group is a non-empty slice of the path |
| SecretsStore.LazyGroupComplete | pkg/secrets-store/utils.go:99 | if some end qualifies, the lazy group finds one |
| SecretsStore.GroupFromComplete | pkg/secrets-store/utils.go:99 | if a lazy group exists after some back-off, the search finds a group |
| SecretsStore.FindFromSound | pkg/secrets-store/utils.go:100 | a found match is the match at some start position |
| SecretsStore.FindFromComplete | pkg/secrets-store/utils.go:100 | if any position matches, the leftmost search finds a match |
| SecretsStore.MatchAtComplete | pkg/secrets-store/utils.go:99 | every instance of the pattern at `i` is found by the matcher at `i` |
| SecretsStore.PodUIDMatchesPattern | pkg/secrets-store/utils.go:98-105 | the pod UID is non-empty exactly when the path contains the pattern, with bar, slash and backslash as separators, and is then the group of such an instance; "" otherwise |
| SecretsStore.FindFromSkip | pkg/secrets-store/utils.go:100 | positions that do not match can be skipped by the leftmost search |
| SecretsStore.LazyGroupOverSegment | pkg/secrets-store/utils.go:99 | over a plain segment followed by `/volumes`, the lazy group stops at the segment's end |
| SecretsStore.KubeletPrefixNoMatch | pkg/secrets-store/utils.go:99 | no match starts inside `/var/lib/kubelet` |
| SecretsStore.KubeletMatch | pkg/secrets-store/utils.go:99 | on a kubelet layout, the match at `/pods` captures the UID segment |
| SecretsStore.PodUIDRoundTrip | pkg/secrets-store/utils.go:98-105 | for `/var/lib/kubelet/pods` + sep + uid + sep + `volumes...`, with uid non-empty and free of separators and newlines, the pod UID read back is uid |
| SecretsStore.GetStringFromObjectSpec | pkg/secrets-store/utils.go:184-196 | succeeds exactly when `spec[key]` is a non-empty string, and returns it; a missing field and an empty one are distinct errors |
| SecretsStore.GetStringFromObjectStatus | pkg/secrets-store/utils.go:199-211 | the same for `status[key]` |
| SecretsStore.GetMapFromObjectSpec | pkg/secrets-store/utils.go:212-224 | succeeds exactly when `spec[key]` is a non-empty map of strings, and returns it key by key; a missing field and an empty one are distinct errors |
| SecretsStore.GetSecretProviderItem | pkg/secrets-store/utils.go:163-182 | a listing error is returned; otherwise it succeeds exactly when some item has the name, returning the first such item; else "not found" |
| SecretsStore.PodStatusObject | pkg/secrets-store/utils.go:226-251 | name `pod-namespace-spc`, the namespace, and a status holding exactly pod name, target path, mounted and class name |
| SecretsStore.BindingFieldsReadBack | pkg/secrets-store/utils.go:246-253 | a binding's pod name, target path and class name read back through the status lookup, and not through the spec lookup |
| SecretsStore.GetK8sSecretAsWritten | pkg/secrets-store/utils.go:274-294 | as written: fails only without a client; a failed lookup yields an empty secret with the name and namespace |
| SecretsStore.GetK8sSecret | pkg/secrets-store/utils.go:274-294 | corrected: succeeds exactly when the secret is found, returning it; otherwise the lookup error |
| SecretsStore.GetK8sSecretDropsLookupError | pkg/secrets-store/utils.go:291-293 | for a missing secret the code as written succeeds with an empty secret, while the corrected one reports "not found" |
| SecretsStore.UnstructuredItem.constructor | pkg/secrets-store/utils.go:296 | the item wraps the given object |
| SecretsStore.ParseEntriesShape | pkg/secrets-store/utils.go:312-322 | the entries parse exactly when each one does; then one output per entry, in order, with `objectType` and `objectAlias` removed; otherwise the error names a failing entry |
| SecretsStore.InitializedObjectsAppend | pkg/secrets-store/utils.go:296-327 | `status.objects` becomes the running objects followed by the stripped entries, and no other top-level field changes |
| SecretsStore.InitializeFailsOnBadEntry | pkg/secrets-store/utils.go:312-318 | an entry that does not parse makes the whole call fail |
| Unstructured.SetNestedField | pkg/secrets-store/utils.go:324-327 | fails exactly when `status` holds something other than an object or nil; on success `status.objects` reads back as the value, and no other field, top-level or under `status`, changes |
| SecretsStore.InitializeObjectsInStatus | pkg/secrets-store/utils.go:296-332 | on success the item holds the initialised object; on failure the error is returned and the item is unchanged; the entries can be deep-copied and, when `Update` is reached, a client can be made |
| Reconciler.Payload.constructor | pkg/reconciler/reconciler.go:61-64 | a fresh payload has empty parameters and secrets |
| Reconciler.AddK8sSecrets | pkg/reconciler/reconciler.go:155-172 | succeeds exactly when the secret is found, and then the credentials are its `clientid`/`clientsecret` decoded over the old ones; only the credentials change; on failure nothing changes and the error is the lookup's |
| Reconciler.AddK8sSecretsToPayload | pkg/reconciler/reconciler.go:155-172 | the payload after the call, and the error, are those of `AddK8sSecrets` |
| Reconciler.ScanVolumes | pkg/reconciler/reconciler.go:205-215 | the mount name is the last CSI volume's name; the secret name is its reference, only with `usePodIdentity` "false" |
| Reconciler.PodStep | pkg/reconciler/reconciler.go:187-225 | one entry fails exactly when its pod cannot be fetched or, with "false", the secret its last CSI volume names is not found; on success the target path is built from the pod's UID and that volume's name |
| Reconciler.PodsFoldSucceeds | pkg/reconciler/reconciler.go:187-227 | the pod loop succeeds exactly when every entry is read and none fails |
| Reconciler.PodInfoToPayload | pkg/reconciler/reconciler.go:174-227 | the payload and error after the loop over `byPod` are those of `PodInfo` |
| Reconciler.PodInfoNeedsByPod | pkg/reconciler/reconciler.go:176-182 | without a usable `status.byPod` the call fails and no payload field changes ("no pods tracked" when there is no status) |
| Reconciler.PodsFoldStopsAtFetchError | pkg/reconciler/reconciler.go:196-203 | a pod that cannot be fetched fails the call, whatever the entries after it; if it is the first entry, nothing has changed |
| Reconciler.TargetPathFromLastPod | pkg/reconciler/reconciler.go:187-216 | after a successful loop, the target path is derived from the last entry's pod UID and mount name |
| Reconciler.PodsFoldFrame | pkg/reconciler/reconciler.go:187-225 | the pod loop changes only target path and credentials, the credentials only with `usePodIdentity` "false" |
| Reconciler.PodInfoFrame | pkg/reconciler/reconciler.go:174-227 | the same for the whole call |
| Reconciler.TargetPathPodUID | pkg/reconciler/reconciler.go:216 | the pod UID read back from the target path built for a pod is the pod's UID |
| Reconciler.BuildPayloadFromSecretProviderClass | pkg/reconciler/reconciler.go:79-115 | the payload and error after the call are those of `Build` |
| Reconciler.BuildNamesAndParameters | pkg/reconciler/reconciler.go:81-106 | the payload is named after the class; on success the parameters are decoded from a non-empty `spec.parameters` and the provider is `spec.provider`; missing or empty parameters give their distinct errors |
| Reconciler.FetchProviderBinary | pkg/reconciler/reconciler.go:116-153 | the invocation made is `ProviderCallFor(payload)`, and no error is returned whatever the run's outcome |
| Reconciler.ProviderCallShape | pkg/reconciler/reconciler.go:116-137 | the binary is `GetProviderPath` off Windows; the args are the fixed eight-element list with "420"; the info line redacts attributes and secrets |
| Reconciler.DumpShowsClientSecret | pkg/reconciler/reconciler.go:118 | the payload dump reveals the client secret |
| Reconciler.ReconcileItem | pkg/reconciler/reconciler.go:61-76 | one iteration yields `ItemCall` |
| Reconciler.Reconciler | pkg/reconciler/reconciler.go:49-78 | the calls made are those up to the first class whose payload cannot be built; none for an empty listing |
| Reconciler.CallsStopAtFirstError | pkg/reconciler/reconciler.go:65-69 | each call is its class's; when there are fewer calls than classes, the next class is read and its payload does not build; a build failure at `k` bounds the calls by `k`; without failures every class is called |
| RotationReconciler.Payload.constructor | pkg/rotation_reconciler/reconciler.go:69 | a zero payload |
| RotationReconciler.GetNodePublishSecretRefFromPod | pkg/rotation_reconciler/reconciler.go:191-200 | the reference of the last volume of driver `secrets-store.csi.k8s.io`, "" without one |
| RotationReconciler.NodePublishSecretRefIgnoresOtherVolumes | pkg/rotation_reconciler/reconciler.go:194-196 | a volume without CSI or of another driver, inserted anywhere, does not change the result |
| RotationReconciler.NodePublishSecretRefLastWins | pkg/rotation_reconciler/reconciler.go:198 | a last volume of the driver decides the result |
| RotationReconciler.BuildK8sSecrets | pkg/rotation_reconciler/reconciler.go:172-189 | succeeds exactly when the secret is found, and then the credentials are its `clientid`/`clientsecret` decoded over the old ones; only the credentials change; on failure nothing changes and the error is the lookup's |
| RotationReconciler.BuildK8sSecretsPayload | pkg/rotation_reconciler/reconciler.go:172-189 | the payload and error after the call are those of `BuildK8sSecrets` |
| RotationReconciler.FetchProviderBinary | pkg/rotation_reconciler/reconciler.go:131-170 | the invocation made is `ProviderCallFor(payload)`, no error whatever the run's outcome |
| RotationReconciler.ProviderCallRedacts | pkg/rotation_reconciler/reconciler.go:147-154 | the eight arguments are attributes, secrets, target path and "420" after their flags; the log shows attributes or secrets only if they equal the target path |
| RotationReconciler.ReadBinding | pkg/rotation_reconciler/reconciler.go:75-78 | the namespace, and each of target path, pod name and class name as set in the binding's status, or "" |
| RotationReconciler.TickStep | pkg/rotation_reconciler/reconciler.go:68-128 | binding `i` is read; the payloads from binding `i` on are binding `i`'s then the rest, or none if binding `i` ends the loop, and only then are later bindings read |
| RotationReconciler.ReconcileBinding | pkg/rotation_reconciler/reconciler.go:69-115 | one iteration yields `BindingStep` |
| RotationReconciler.Reconciler | pkg/rotation_reconciler/reconciler.go:49-129 | a listing failure dumps nothing; otherwise the payloads dumped are those of `Tick` |
| RotationReconciler.TickStopsAtFirstStop | pkg/rotation_reconciler/reconciler.go:68-108 | each dumped payload is its binding's; when there are fewer dumps than bindings, the next binding is read and ends the loop; a binding ending the loop at `k` bounds the dumps by `k`; otherwise every binding is dumped |
| RotationReconciler.BindingStopCondition | pkg/rotation_reconciler/reconciler.go:70-108 | a binding ends the loop exactly when no client can be made, or pod identity is "false" and no secret reference is found |
| RotationReconciler.MissingSpcOnlyLogged | pkg/rotation_reconciler/reconciler.go:81-84 | a class that cannot be fetched is only logged: the payload is the zero payload with the binding's target path |
| RotationReconciler.DumpedPayloadFields | pkg/rotation_reconciler/reconciler.go:75-115 | every field of a dumped payload: provider, target path, parameters and current objects from the class, empty name, and credentials only with pod identity "false" (from the found secret, else zero) |
| SecretsStoreReconciler.Payload.constructor | cmd/secrets-store-reconciler/main.go:59-62 | a fresh payload: empty fields and permission 0 |
| SecretsStoreReconciler.AddK8sSecrets | cmd/secrets-store-reconciler/main.go:155-172 | succeeds exactly when the secret is found, and then the credentials are its `clientid`/`clientsecret` decoded over the old ones; only the credentials change; on failure nothing changes and the error is the lookup's |
| SecretsStoreReconciler.AddK8sSecretsToPayload | cmd/secrets-store-reconciler/main.go:155-172 | the payload and error after the call are those of `AddK8sSecrets` |
| SecretsStoreReconciler.ScanVolumes | cmd/secrets-store-reconciler/main.go:201-208 | secret reference and mount name of the last CSI volume, whatever `usePodIdentity` says |
| SecretsStoreReconciler.MountsContents | cmd/secrets-store-reconciler/main.go:211-212 | the mounts visited are exactly those of the pod's containers |
| SecretsStoreReconciler.ScanMountsAppend | cmd/secrets-store-reconciler/main.go:211-220 | scanning `a` then `b` is scanning `a + b` |
| SecretsStoreReconciler.ScanMountsPath | cmd/secrets-store-reconciler/main.go:213-214 | the mount path is that of the last mount named like the chosen volume; with none, path and permission are unchanged |
| SecretsStoreReconciler.ScanMountsPermissions | cmd/secrets-store-reconciler/main.go:215-217 | the permission becomes 0644 exactly when some matching mount is read-only, and is kept otherwise |
| SecretsStoreReconciler.SelectMount | cmd/secrets-store-reconciler/main.go:211-220 | the nested loops set mount path and permission as the scan over all containers' mounts does, and nothing else |
| SecretsStoreReconciler.PodStep | cmd/secrets-store-reconciler/main.go:187-228 | one entry fails exactly when no client can be made or, with "false", the secret its pod's last CSI volume names is not found; otherwise the mount path and permission are those of the mount scan |
| SecretsStoreReconciler.PodsFoldSucceeds | cmd/secrets-store-reconciler/main.go:187-230 | the pod loop succeeds exactly when every entry is read and none fails |
| SecretsStoreReconciler.PodInfoToPayload | cmd/secrets-store-reconciler/main.go:174-230 | the payload and error after the loop over `byPod` are those of `PodInfo` |
| SecretsStoreReconciler.PodStepFrame | cmd/secrets-store-reconciler/main.go:187-228 | one entry changes only mount path, permission and credentials (credentials only with "false"); the permission only to 0644 |
| SecretsStoreReconciler.PodsFoldFrame | cmd/secrets-store-reconciler/main.go:187-228 | the same for the whole pod loop |
| SecretsStoreReconciler.PodInfoFrame | cmd/secrets-store-reconciler/main.go:174-230 | the same for the whole call |
| SecretsStoreReconciler.UnreadablePodIsZero | cmd/secrets-store-reconciler/main.go:199-208 | a pod that cannot be fetched (with a client) is read as empty: nothing changes but, with "false", the credentials |
| SecretsStoreReconciler.BuildPayloadFromSpc | cmd/secrets-store-reconciler/main.go:75-107 | the payload and error after the call are those of `Build` |
| SecretsStoreReconciler.FreshBuildPermissions | cmd/secrets-store-reconciler/main.go:59-63 | from a fresh payload, the name is the class's and the permission is 0 or 420 |
| SecretsStoreReconciler.FetchProviderBinary | cmd/secrets-store-reconciler/main.go:108-153 | the invocation made is `ProviderCallFor(payload)`, no error whatever the run's outcome |
| SecretsStoreReconciler.ProviderCallShape | cmd/secrets-store-reconciler/main.go:123-141 | target path is the mount path; the permission argument is its JSON rendering ("420", "0"); the info line hides attributes and secrets unless equal to the mount path, but the dump of the arguments shows both |
| SecretsStoreReconciler.FreshPermissionArgument | cmd/secrets-store-reconciler/main.go:123-134 | for each class, the permission argument is "420" or "0" |
| SecretsStoreReconciler.ReconcileItem | cmd/secrets-store-reconciler/main.go:59-71 | one iteration yields `ItemCall`, even after a build failure |
| SecretsStoreReconciler.Run | cmd/secrets-store-reconciler/main.go:49-74 | every listed class gets its call, in order, whatever failed |

## Left out

- Cluster I/O has no model. `GetClient`, `List`, `Get`, `Create` and `Update` become input data or a parameter holding their result.
  - In `pkg/reconciler`, `cmd` and `pkg/secrets-store`, a client that cannot be made is folded into the "client unavailable" outcome of the lookup it precedes.
  - In the rotation reconciler, `GetClient` is called once per binding; the model reads one flag, `Cluster.clientOk`, for the whole tick. A client that can be made for one binding and not for a later one is therefore not expressible.
  - The `Update` call of `initializeObjectsInStatus` (`pkg/secrets-store/utils.go:329-331`) is not modelled beyond the client it needs. Its result is dropped by the code.
- The provider sub-process, its buffers and its stderr are left out. Its outcome is a boolean parameter.
- Logging has no model. The model keeps only the words that would reveal the credentials: the info line, the payload dump of `pkg/reconciler` and the argument dump of `cmd`.
- JSON and YAML library internals are left out:
  - Unmarshalling into `Parameters`/`Secrets` is picking the named keys.
  - Go's case-insensitive key matching is not modelled.
  - YAML syntax is a parser parameter.
- Provider.JsonObject, Provider.EncodeParameters, Provider.EncodeSecrets: the contracts state only that the rendering is a JSON object. Byte-exact equality with `encoding/json` is not proved.
- Provider.BytesToString: each byte becomes one character. UTF-8 decoding is not modelled.
- `ensureMountPoint` is left out. It depends on the mounter, the filesystem and `runtime.GOOS`.
- `pkg/rotation_reconciler/utils.go` is left out. It holds thin client wrappers.
- The timer `main`s of `cmd/rotation-reconciler` and `cmd/rotation_reconciler` are left out. They are scheduling loops.
- Version-marker reading and the merge of version state are left out. No modelled file implements them.
- The drivers build on the corrected `GetK8sSecret` (see "## Findings"). As written, a missing or unreadable secret gives an empty secret and no error, so the credentials stay as they were and nothing stops. The members below state the corrected behaviour; `Provider.CredentialsFromSecretAsWritten` states the code as written.
- Provider.CredentialsFromSecret: a missing secret is the lookup error, where the code as written returns the credentials unchanged with no error.
- Reconciler.AddK8sSecrets: a missing secret is an error, where `pkg/reconciler/reconciler.go:157` sees none.
- Reconciler.AddK8sSecretsToPayload: the same, through `AddK8sSecrets`.
- Reconciler.PodStep: a missing secret ends the entry with "forming secrets"; as written only a client failure does.
- Reconciler.Reconciler: a class whose pod names a missing secret makes no call and ends the loop; as written it is called and the loop goes on.
- Reconciler.CallsStopAtFirstError: the bound it states counts a missing secret as a build failure.
- SecretsStoreReconciler.AddK8sSecrets: a missing secret is an error, where `cmd/secrets-store-reconciler/main.go:157` sees none.
- SecretsStoreReconciler.AddK8sSecretsToPayload: the same, through `AddK8sSecrets`.
- SecretsStoreReconciler.PodStep: a missing secret ends the pod loop, so later `byPod` entries are not read; as written the loop goes on.
- SecretsStoreReconciler.PodInfoToPayload: the same, for the whole pod loop.
- RotationReconciler.BuildK8sSecrets: a missing secret is an error, where the code as written sees none; the tick logs it and dumps the payload either way.
- RotationReconciler.BuildK8sSecretsPayload: the same, through `BuildK8sSecrets`.
- Reconciler.PodInfoToPayload: a missing secret ends the pod loop with "forming secrets"; as written the loop goes on to the next entry.
- Reconciler.BuildPayloadFromSecretProviderClass: a class whose tracked pod names a missing secret fails with "podInfoToPayload"; as written the payload builds.
- Reconciler.ReconcileItem: for such a class the result is no call; as written the provider is called with the payload.
- SecretsStoreReconciler.BuildPayloadFromSpc: a missing secret stops its pod loop, so the mount path and permission are set by the entries up to and including it; as written later entries are still read.
- SecretsStoreReconciler.ReconcileItem: the call therefore carries the mount path set by the entries up to and including the one with the missing secret, where as written the later entries can still change it.
- SecretsStoreReconciler.Run: the same, for each class of the listing.
- Nil-pointer panics, failed type assertions and failed deep copies are not modelled. They are preconditions, asked only of what a loop reads before it returns (see "Panics").
- SecretsStore.InitializeObjectsInStatus: `runningObjects`, which no modelled file supplies, is taken to hold only values `runtime.DeepCopyJSONValue` copies; YAML floats are not modelled.
- The rotation reconciler marshals the current objects in its provider call (line 137) but never passes them to the binary. They are kept only in the payload.
- The marshalling errors of the `fetchProviderBinary` drafts are left out. Marshalling the model's string-only structures cannot fail, so these paths are unreachable.
  - In `pkg/reconciler` the item loop's return on a provider error is therefore unreachable too.
- ListSecretProviderClasses is not part of this model. Its result is the `Listing` parameter.
- In `main`, a listing error is only logged and the listed items are still processed, as at `cmd/secrets-store-reconciler/main.go:55-58`. A nil list in Go is an empty one.

## Findings

| source | as written | input that shows it | evidently intended | confidence | as-written member | corrected member |
|---|---|---|---|---|---|---|
| pkg/secrets-store/utils.go:291-293 | the error of `client.Get` is overwritten and `nil` returned, so a secret that is missing or unreadable yields an empty secret with no error | a node-publish secret name that does not exist in the namespace | return the lookup error, as every caller checks `err` | not executed | SecretsStore.GetK8sSecretAsWritten, SecretsStore.GetK8sSecretDropsLookupError, Provider.CredentialsFromSecretAsWritten, Provider.CredentialsMissingSecret | SecretsStore.GetK8sSecret, Provider.CredentialsFromSecret |
