/** pkg/reconciler/reconciler.go: for every secret provider class in the
    cluster, a fresh provider payload is filled from the class and from the
    pods its `status.byPod` tracks, and the provider binary is invoked with
    it. The first class whose payload cannot be built stops the loop. */
module Reconciler {
  import opened Wrappers
  import opened Unstructured
  import opened Cluster
  import opened Provider
  import opened SecretsStore

  /** The fields of `Payload`, as a value. */
  datatype PayloadValue = PayloadValue(
    provider: string,
    targetPath: string,
    parameters: Parameters,
    secrets: Secrets,
    providerName: string)

  /** `&Payload{Parameters: Parameters{}, Secrets: Secrets{}}`. */
  const FreshPayload := PayloadValue("", "", ZeroParameters, ZeroSecrets, "")

  /** The `Payload` struct, filled in place through its pointer. */
  class Payload {
    var provider: string
    var targetPath: string
    var parameters: Parameters
    var secrets: Secrets
    var providerName: string

    constructor ()
      ensures Value() == FreshPayload
    {
      provider := "";
      targetPath := "";
      parameters := ZeroParameters;
      secrets := ZeroSecrets;
      providerName := "";
    }

    function Value(): PayloadValue
      reads this
    {
      PayloadValue(provider, targetPath, parameters, secrets, providerName)
    }
  }

  /** The payload after a step, with the error the step returned. */
  datatype Outcome = Outcome(payload: PayloadValue, error: Option<Error>)

  // ---------------------------------------------------------------------
  // addK8sSecretsToPayload

  /** The payload with the credentials of secret `secretsName` of
      `namespace`: the secret's `clientid` and `clientsecret` decoded over
      the old credentials; only the credentials change, and nothing does
      when the secret cannot be read, which is the lookup error. */
  function AddK8sSecrets(c: Cluster, secretsName: string, namespace: string, p: PayloadValue): (o: Outcome)
    ensures o.payload == p.(secrets := o.payload.secrets)
    ensures o.error.Some? ==> o.payload == p
    ensures var key := ObjectKey(namespace, secretsName);
            && (o.error.None? <==> key in c.secrets && c.secrets[key].Found?)
            && (o.error.None? ==> o.payload.secrets == DecodeSecrets(SecretStrings(c.secrets[key].value.data), p.secrets))
            && (o.error.Some? ==> o.error == Some(Api(Get(c.secrets, key).error)))
  {
    match CredentialsFromSecret(c, secretsName, namespace, p.secrets)
    case Err(e) => Outcome(p, Some(e))
    case Ok(secrets) => Outcome(p.(secrets := secrets), None)
  }

  method AddK8sSecretsToPayload(c: Cluster, secretsName: string, namespace: string, payload: Payload)
    returns (err: Option<Error>)
    modifies payload
    ensures Outcome(payload.Value(), err) == AddK8sSecrets(c, secretsName, namespace, old(payload.Value()))
  {
    var secret := GetK8sSecret(c, secretsName, namespace);
    if secret.Err? {
      return Some(secret.error);
    }
    var k8sSecrets := SecretDataToStrings(secret.value.data);
    payload.secrets := DecodeSecrets(k8sSecrets, payload.secrets);
    return None;
  }

  // ---------------------------------------------------------------------
  // podInfoToPayload

  /** The secret ref and the mount name the volume loop settles on. */
  datatype VolumeChoice = VolumeChoice(secretsName: string, mountName: string)

  /** Both come from the last volume with a CSI source, whatever its driver;
      the secret ref is read only when `usePodIdentity` is "false". */
  function ChosenVolume(vols: seq<Volume>, usePodIdentity: string): VolumeChoice
    requires usePodIdentity == "false" ==> CsiRefsPresent(vols, None)
  {
    match LastCsiVolume(vols, None)
    case None => VolumeChoice("", "")
    case Some(k) =>
      VolumeChoice(if usePodIdentity == "false" then vols[k].csi.value.nodePublishSecretRef.value else "",
                   vols[k].name)
  }

  /** The loop over `pod.Spec.Volumes`. */
  method ScanVolumes(vols: seq<Volume>, usePodIdentity: string) returns (secretsName: string, mountName: string)
    requires usePodIdentity == "false" ==> CsiRefsPresent(vols, None)
    ensures VolumeChoice(secretsName, mountName) == ChosenVolume(vols, usePodIdentity)
  {
    secretsName, mountName := "", "";
    for i := 0 to |vols|
      invariant VolumeChoice(secretsName, mountName) == ChosenVolume(vols[..i], usePodIdentity)
    {
      LastCsiVolumeExtend(vols, None, i);
      var vol := vols[i];
      if vol.csi.None? {
        continue;
      }
      if usePodIdentity == "false" {
        secretsName := vol.csi.value.nodePublishSecretRef.value;
      }
      mountName := vol.name;
    }
    assert vols[..|vols|] == vols;
  }

  /** The kubelet target path of a pod's CSI volume mount. */
  function TargetPathFor(podUID: string, mountName: string): string {
    "/var/lib/kubelet/pods/" + podUID + "/volumes/kubernetes.io~csi/" + mountName + "/mount"
  }

  /** What reading `entry` needs to not panic: it is a map of strings and,
      with `usePodIdentity` "false", its pod has a secret ref on each CSI
      volume. */
  predicate EntryReady(c: Cluster, entry: Value, usePodIdentity: string) {
    PodEntry(entry) && (usePodIdentity == "false" ==> FetchedPodHasCsiRefs(c, EntryKey(entry), None))
  }

  /** When the step for `entry` fails, whatever the payload: its pod cannot
      be fetched, or (with "false") the secret its CSI volume names is not
      in the cluster. */
  predicate PodStepFails(c: Cluster, entry: Value, usePodIdentity: string)
    requires EntryReady(c, entry, usePodIdentity)
  {
    var fetched := Get(c.pods, EntryKey(entry));
    || fetched.Err?
    || (usePodIdentity == "false"
        && var key := ObjectKey(EntryKey(entry).namespace, ChosenVolume(fetched.value.volumes, usePodIdentity).secretsName);
        !(key in c.secrets && c.secrets[key].Found?))
  }

  /** Every entry the pod loop reaches is `EntryReady`: the first one, and
      each later one as long as no earlier step failed. */
  predicate EntriesReady(c: Cluster, entries: seq<Value>, usePodIdentity: string)
    decreases |entries|
  {
    entries != [] ==>
      && EntryReady(c, entries[0], usePodIdentity)
      && (!PodStepFails(c, entries[0], usePodIdentity) ==> EntriesReady(c, entries[1..], usePodIdentity))
  }

  /** One `byPod` entry: fetch the pod, set the target path, then (with
      `usePodIdentity` "false") add the secret. */
  function PodStep(c: Cluster, p: PayloadValue, entry: Value, usePodIdentity: string): (o: Outcome)
    requires EntryReady(c, entry, usePodIdentity)
    ensures o.error.Some? <==> PodStepFails(c, entry, usePodIdentity)
    ensures o.error.None? ==>
              var pod := Get(c.pods, EntryKey(entry)).value;
              o.payload.targetPath == TargetPathFor(pod.uid, ChosenVolume(pod.volumes, usePodIdentity).mountName)
  {
    match Get(c.pods, EntryKey(entry))
    case Err(e) => Outcome(p, Some(Context("fetching pod", Api(e))))
    case Ok(pod) =>
      var choice := ChosenVolume(pod.volumes, usePodIdentity);
      var p1 := p.(targetPath := TargetPathFor(pod.uid, choice.mountName));
      if usePodIdentity == "false" then
        var o := AddK8sSecrets(c, choice.secretsName, EntryKey(entry).namespace, p1);
        if o.error.Some? then Outcome(o.payload, Some(Context("forming secrets", o.error.value))) else o
      else Outcome(p1, None)
  }

  /** The pod loop; the first failing entry ends it. */
  function PodsFold(c: Cluster, p: PayloadValue, entries: seq<Value>, usePodIdentity: string): Outcome
    requires EntriesReady(c, entries, usePodIdentity)
    decreases |entries|
  {
    if entries == [] then Outcome(p, None)
    else
      var o := PodStep(c, p, entries[0], usePodIdentity);
      if o.error.Some? then o else PodsFold(c, o.payload, entries[1..], usePodIdentity)
  }

  /** The entries of `status.byPod`, when it is a list, are `EntriesReady`. */
  predicate TrackedReady(c: Cluster, obj: Object, usePodIdentity: string) {
    var r := NestedSlice(obj, "status", "byPod");
    r.Ok? && r.value.Some? ==> EntriesReady(c, r.value.value, usePodIdentity)
  }

  function PodInfo(c: Cluster, p: PayloadValue, obj: Object, spcName: string, usePodIdentity: string): Outcome
    requires TrackedReady(c, obj, usePodIdentity)
  {
    match NestedSlice(obj, "status", "byPod")
    case Err(e) => Outcome(p, Some(Context("parsing byPod", Access(e))))
    case Ok(None) => Outcome(p, Some(NoPodsTracked(spcName)))
    case Ok(Some(entries)) => PodsFold(c, p, entries, usePodIdentity)
  }

  method PodInfoToPayload(c: Cluster, payload: Payload, obj: Object, spcName: string, usePodIdentity: string)
    returns (err: Option<Error>)
    requires TrackedReady(c, obj, usePodIdentity)
    modifies payload
    ensures Outcome(payload.Value(), err) == PodInfo(c, old(payload.Value()), obj, spcName, usePodIdentity)
  {
    var statusPods := NestedSlice(obj, "status", "byPod");
    if statusPods.Err? {
      return Some(Context("parsing byPod", Access(statusPods.error)));
    }
    if statusPods.value.None? {
      return Some(NoPodsTracked(spcName));
    }
    var entries := statusPods.value.value;
    ghost var total := PodsFold(c, payload.Value(), entries, usePodIdentity);
    var i := 0;
    assert entries[0..] == entries;
    while i < |entries|
      invariant 0 <= i <= |entries|
      invariant EntriesReady(c, entries[i..], usePodIdentity)
      invariant PodsFold(c, payload.Value(), entries[i..], usePodIdentity) == total
    {
      assert entries[i..][0] == entries[i] && entries[i..][1..] == entries[i + 1..];
      var entry := entries[i];
      var key := EntryKey(entry);
      var fetched := Get(c.pods, key);
      if fetched.Err? {
        return Some(Context("fetching pod", Api(fetched.error)));
      }
      var pod := fetched.value;
      var secretsName, mountName := ScanVolumes(pod.volumes, usePodIdentity);
      payload.targetPath := TargetPathFor(pod.uid, mountName);
      if usePodIdentity == "false" {
        var e := AddK8sSecretsToPayload(c, secretsName, key.namespace, payload);
        if e.Some? {
          return Some(Context("forming secrets", e.value));
        }
      }
      i := i + 1;
    }
    return None;
  }

  /** A class without `status.byPod` (or whose `byPod` is not a list) fails
      before any payload field is changed. */
  lemma PodInfoNeedsByPod(c: Cluster, p: PayloadValue, obj: Object, spcName: string, usePodIdentity: string)
    requires TrackedReady(c, obj, usePodIdentity)
    requires NestedSlice(obj, "status", "byPod").Err? || NestedSlice(obj, "status", "byPod").value.None?
    ensures PodInfo(c, p, obj, spcName, usePodIdentity).payload == p
    ensures PodInfo(c, p, obj, spcName, usePodIdentity).error.Some?
    ensures "status" !in obj ==> PodInfo(c, p, obj, spcName, usePodIdentity).error == Some(NoPodsTracked(spcName))
  {
  }

  /** The pod of an entry that cannot be fetched ends the loop with the
      lookup error; the payload keeps what the earlier entries set. */
  lemma {:induction false} PodsFoldStopsAtFetchError(c: Cluster, p: PayloadValue, entries: seq<Value>,
                                                     usePodIdentity: string, k: nat)
    requires EntriesReady(c, entries, usePodIdentity)
    requires k < |entries| && PodEntry(entries[k]) && Get(c.pods, EntryKey(entries[k])).Err?
    ensures PodsFold(c, p, entries, usePodIdentity).error.Some?
    ensures k == 0 ==> PodsFold(c, p, entries, usePodIdentity)
                       == Outcome(p, Some(Context("fetching pod", Api(Get(c.pods, EntryKey(entries[0])).error))))
    decreases k
  {
    if k > 0 {
      var o := PodStep(c, p, entries[0], usePodIdentity);
      if o.error.None? {
        assert entries[1..][k - 1] == entries[k];
        PodsFoldStopsAtFetchError(c, o.payload, entries[1..], usePodIdentity, k - 1);
      }
    }
  }

  /** The pod loop succeeds exactly when it reaches every entry and no step
      fails. */
  lemma {:induction false} PodsFoldSucceeds(c: Cluster, p: PayloadValue, entries: seq<Value>, usePodIdentity: string)
    requires EntriesReady(c, entries, usePodIdentity)
    ensures PodsFold(c, p, entries, usePodIdentity).error.None?
            <==> forall k :: 0 <= k < |entries| ==>
                   EntryReady(c, entries[k], usePodIdentity) && !PodStepFails(c, entries[k], usePodIdentity)
    decreases |entries|
  {
    if entries != [] {
      var o := PodStep(c, p, entries[0], usePodIdentity);
      if o.error.None? {
        PodsFoldSucceeds(c, o.payload, entries[1..], usePodIdentity);
        assert forall k :: 0 < k < |entries| ==> entries[k] == entries[1..][k - 1];
      }
    }
  }

  /** When the whole pod loop succeeds over at least one entry, the target
      path is the one built from the last entry's pod. */
  lemma {:induction false} TargetPathFromLastPod(c: Cluster, p: PayloadValue, entries: seq<Value>, usePodIdentity: string)
    requires EntriesReady(c, entries, usePodIdentity)
    requires entries != [] && PodsFold(c, p, entries, usePodIdentity).error.None?
    ensures var last := entries[|entries| - 1];
            && EntryReady(c, last, usePodIdentity)
            && Get(c.pods, EntryKey(last)).Ok?
            && var pod := Get(c.pods, EntryKey(last)).value;
            PodsFold(c, p, entries, usePodIdentity).payload.targetPath
            == TargetPathFor(pod.uid, ChosenVolume(pod.volumes, usePodIdentity).mountName)
    decreases |entries|
  {
    var o := PodStep(c, p, entries[0], usePodIdentity);
    if |entries| > 1 {
      assert entries[1..][|entries[1..]| - 1] == entries[|entries| - 1];
      TargetPathFromLastPod(c, o.payload, entries[1..], usePodIdentity);
    }
  }

  /** The pod loop changes only the target path and the credentials, and
      the credentials only when `usePodIdentity` is "false". */
  lemma {:induction false} PodsFoldFrame(c: Cluster, p: PayloadValue, entries: seq<Value>, usePodIdentity: string)
    requires EntriesReady(c, entries, usePodIdentity)
    ensures var o := PodsFold(c, p, entries, usePodIdentity);
            && o.payload == p.(targetPath := o.payload.targetPath, secrets := o.payload.secrets)
            && (usePodIdentity != "false" ==> o.payload.secrets == p.secrets)
    decreases |entries|
  {
    if entries != [] {
      var o := PodStep(c, p, entries[0], usePodIdentity);
      if o.error.None? {
        PodsFoldFrame(c, o.payload, entries[1..], usePodIdentity);
      }
    }
  }

  /** The same for the whole of `podInfoToPayload`. */
  lemma PodInfoFrame(c: Cluster, p: PayloadValue, obj: Object, spcName: string, usePodIdentity: string)
    requires TrackedReady(c, obj, usePodIdentity)
    ensures var o := PodInfo(c, p, obj, spcName, usePodIdentity);
            && o.payload == p.(targetPath := o.payload.targetPath, secrets := o.payload.secrets)
            && (usePodIdentity != "false" ==> o.payload.secrets == p.secrets)
  {
    var r := NestedSlice(obj, "status", "byPod");
    if r.Ok? && r.value.Some? {
      PodsFoldFrame(c, p, r.value.value, usePodIdentity);
    }
  }

  /** The target path carries the pod's UID back to `getPodUIDFromTargetPath`. */
  lemma TargetPathPodUID(podUID: string, mountName: string)
    requires podUID != [] && PlainSegment(podUID)
    ensures GetPodUIDFromTargetPath(TargetPathFor(podUID, mountName)) == podUID
  {
    var rest := "/kubernetes.io~csi/" + mountName + "/mount";
    assert TargetPathFor(podUID, mountName) == KubeletPodsDir + ['/'] + podUID + ['/'] + "volumes" + rest;
    PodUIDRoundTrip(podUID, '/', '/', rest);
  }

  // ---------------------------------------------------------------------
  // buildPayloadFromSecretProviderClass

  /** What building a payload from `item` needs to not panic: once the
      parameters and the provider are read, the pod loop's entries are
      `EntriesReady` under the class's `usePodIdentity`. */
  predicate BuildReady(c: Cluster, item: Object) {
    var m := GetMapFromObjectSpec(item, "parameters");
    m.Ok? && NestedString(item, "spec", "provider").Ok? ==> TrackedReady(c, item, Pick(m.value, "usePodIdentity", ""))
  }

  function Build(c: Cluster, item: Object, p: PayloadValue): Outcome
    requires BuildReady(c, item)
  {
    var spcName := GetName(item);
    var p1 := p.(providerName := spcName);
    match GetMapFromObjectSpec(item, "parameters")
    case Err(e) => Outcome(p1, Some(Context("receiving params", e)))
    case Ok(parameters) =>
      var p2 := p1.(parameters := DecodeParameters(parameters, p1.parameters));
      match NestedString(item, "spec", "provider")
      case Err(e) => Outcome(p2.(provider := ""), Some(Context("slicing provider", Access(e))))
      case Ok(provider) =>
        var p3 := p2.(provider := provider.GetOr(""));
        var usePodIdentity := Pick(parameters, "usePodIdentity", "");
        var o := PodInfo(c, p3, item, spcName, usePodIdentity);
        if o.error.Some? then Outcome(o.payload, Some(Context("podInfoToPayload", o.error.value))) else o
  }

  method BuildPayloadFromSecretProviderClass(c: Cluster, item: Object, payload: Payload) returns (err: Option<Error>)
    requires BuildReady(c, item)
    modifies payload
    ensures Outcome(payload.Value(), err) == Build(c, item, old(payload.Value()))
  {
    var spcName := GetName(item);
    payload.providerName := spcName;
    var parameters := GetMapFromObjectSpec(item, "parameters");
    if parameters.Err? {
      return Some(Context("receiving params", parameters.error));
    }
    payload.parameters := DecodeParameters(parameters.value, payload.parameters);
    var providerType := NestedString(item, "spec", "provider");
    payload.provider := if providerType.Ok? then providerType.value.GetOr("") else "";
    if providerType.Err? {
      return Some(Context("slicing provider", Access(providerType.error)));
    }
    var usePodIdentity := if "usePodIdentity" in parameters.value then parameters.value["usePodIdentity"] else "";
    var e := PodInfoToPayload(c, payload, item, spcName, usePodIdentity);
    if e.Some? {
      return Some(Context("podInfoToPayload", e.value));
    }
    return None;
  }

  /** The payload is named after the class, whatever happens; on success
      its provider is `spec.provider` and its parameters are decoded from
      `spec.parameters`; missing or empty parameters are an error. */
  lemma BuildNamesAndParameters(c: Cluster, item: Object)
    requires BuildReady(c, item)
    ensures Build(c, item, FreshPayload).payload.providerName == GetName(item)
    ensures Build(c, item, FreshPayload).error.None? ==>
              && StringMapFieldSet(item, "parameters")
              && NestedString(item, "spec", "provider").Ok?
              && Build(c, item, FreshPayload).payload.provider == NestedString(item, "spec", "provider").value.GetOr("")
              && Build(c, item, FreshPayload).payload.parameters
                 == DecodeParameters(GetMapFromObjectSpec(item, "parameters").value, ZeroParameters)
    ensures FieldAbsent(item, "spec", "parameters") ==>
              Build(c, item, FreshPayload)
              == Outcome(FreshPayload.(providerName := GetName(item)),
                         Some(Context("receiving params", FieldMissing("spec", "parameters"))))
    ensures FieldHolds(item, "spec", "parameters", Obj(map[])) ==>
              Build(c, item, FreshPayload).error == Some(Context("receiving params", FieldNotSet("parameters")))
  {
    var m := GetMapFromObjectSpec(item, "parameters");
    var provider := NestedString(item, "spec", "provider");
    if m.Ok? && provider.Ok? {
      var p3 := FreshPayload.(providerName := GetName(item), parameters := DecodeParameters(m.value, ZeroParameters),
                              provider := provider.value.GetOr(""));
      PodInfoFrame(c, p3, item, GetName(item), Pick(m.value, "usePodIdentity", ""));
    }
  }

  // ---------------------------------------------------------------------
  // fetchProviderBinary

  /** What `spew.Dump(payload)` prints: every field, the credentials
      included. */
  function Dumped(p: PayloadValue): seq<string> {
    [p.provider, p.targetPath,
     p.parameters.keyvaultName, p.parameters.tenantId, p.parameters.objects,
     p.parameters.usePodIdentity, p.parameters.useVMManagedIdentity, p.parameters.userAssignedIdentityId,
     p.secrets.clientId, p.secrets.clientSecret, p.providerName]
  }

  /** The invocation `fetchProviderBinary` makes for payload `p`: the dump,
      then the info line with the binary and `args[4:]`. */
  function ProviderCallFor(p: PayloadValue): ProviderCall {
    var binary := ProviderBinaryPath(p.provider);
    var args := ProviderArgs(EncodeParameters(p.parameters), EncodeSecrets(p.secrets), p.targetPath, "420");
    ProviderCall(binary, args, Dumped(p) + InfoLine(binary, args))
  }

  /** `providerRun` is the outcome of running the binary; it is logged and
      otherwise ignored. */
  method FetchProviderBinary(payload: Payload, providerRun: ProviderCall -> bool) returns (call: ProviderCall, err: Option<Error>)
    ensures call == ProviderCallFor(payload.Value())
    ensures err.None?
  {
    var binary := ProviderBinaryPath(payload.provider);
    var parametersStr := EncodeParameters(payload.parameters);
    var secretStr := EncodeSecrets(payload.secrets);
    var args := ProviderArgs(parametersStr, secretStr, payload.targetPath, "420");
    call := ProviderCall(binary, args, Dumped(payload.Value()) + InfoLine(binary, args));
    var succeeded := providerRun(call);
    if !succeeded {
      // the failure and the provider's stderr are logged
    }
    return call, None;
  }

  /** The call shape: the Linux provider path, the eight arguments with
      permission "420", an info line without attributes or secrets, and a
      dump that still shows the client secret. */
  lemma ProviderCallShape(p: PayloadValue)
    ensures ProviderCallFor(p).binary == GetProviderPath("linux", ProviderVolumePath, p.provider)
    ensures ProviderCallFor(p).args
            == ["--attributes", EncodeParameters(p.parameters), "--secrets", EncodeSecrets(p.secrets),
                "--targetPath", p.targetPath, "--permission", "420"]
    ensures ProviderCallFor(p).logged[|Dumped(p)|..]
            == [ProviderCallFor(p).binary, RedactedFlags, "--targetPath", p.targetPath, "--permission", "420"]
    ensures EncodeParameters(p.parameters) in ProviderCallFor(p).logged[|Dumped(p)|..]
            ==> EncodeParameters(p.parameters) == p.targetPath
    ensures EncodeSecrets(p.secrets) in ProviderCallFor(p).logged[|Dumped(p)|..]
            ==> EncodeSecrets(p.secrets) == p.targetPath
  {
    var binary := ProviderBinaryPath(p.provider);
    var args := ProviderArgs(EncodeParameters(p.parameters), EncodeSecrets(p.secrets), p.targetPath, "420");
    InfoLineRedacts(p.provider, EncodeParameters(p.parameters), EncodeSecrets(p.secrets), p.targetPath, "420");
    assert ProviderCallFor(p).logged[|Dumped(p)|..] == InfoLine(binary, args);
  }

  /** Redaction is partial: the payload dump shows the client secret. */
  lemma DumpShowsClientSecret(p: PayloadValue)
    ensures p.secrets.clientSecret in ProviderCallFor(p).logged
  {
    assert ProviderCallFor(p).logged[9] == p.secrets.clientSecret;
  }

  // ---------------------------------------------------------------------
  // Reconciler

  /** What one item yields: the provider call made with its payload, `None`
      when the payload cannot be built. */
  function ItemCall(c: Cluster, item: Object): (r: Option<ProviderCall>)
    requires BuildReady(c, item)
    ensures r.None? <==> Build(c, item, FreshPayload).error.Some?
    ensures r.Some? ==> r.value == ProviderCallFor(Build(c, item, FreshPayload).payload)
  {
    var o := Build(c, item, FreshPayload);
    if o.error.Some? then None else Some(ProviderCallFor(o.payload))
  }

  /** `BuildReady` and `ItemCall` as the readiness and the step of the
      loop over the items; an item that is not ready yields nothing. */
  function ItemReadyFn(c: Cluster): Object -> bool {
    item => BuildReady(c, item)
  }

  function ItemStep(c: Cluster): Object -> Option<ProviderCall> {
    item => if BuildReady(c, item) then ItemCall(c, item) else None
  }

  /** Every item the loop reaches is `BuildReady`: the first one, and each
      later one as long as every earlier payload was built. */
  predicate ItemsReady(c: Cluster, items: seq<Object>) {
    Reached(items, ItemReadyFn(c), ItemStep(c))
  }

  /** The provider calls of one reconciliation over `items`: one per item
      until the first item whose payload cannot be built. */
  function Calls(c: Cluster, items: seq<Object>): seq<ProviderCall>
    requires ItemsReady(c, items)
  {
    Collect(items, ItemStep(c))
  }

  /** One iteration of the loop: a fresh payload, built from `item`, and the
      provider call made with it. */
  method ReconcileItem(c: Cluster, item: Object, providerRun: ProviderCall -> bool) returns (call: Option<ProviderCall>)
    requires BuildReady(c, item)
    ensures call == ItemCall(c, item)
  {
    var payload := new Payload();
    var err := BuildPayloadFromSecretProviderClass(c, item, payload);
    if err.Some? {
      return None;
    }
    // `FetchProviderBinary` never returns an error, so the early return
    // after it is never taken
    var made, _ := FetchProviderBinary(payload, providerRun);
    return Some(made);
  }

  /** One pass over the listed secret provider classes; an empty list makes
      no call. */
  method Reconciler(c: Cluster, listing: Listing, providerRun: ProviderCall -> bool) returns (calls: seq<ProviderCall>)
    requires ItemsReady(c, listing.items)
    ensures calls == Calls(c, listing.items)
    ensures listing.items == [] ==> calls == []
  {
    var items := listing.items;
    if |items| < 1 {
      return [];
    }
    // a listing error is logged and the items are processed anyway
    calls := [];
    var i := 0;
    assert items[0..] == items;
    while i < |items|
      invariant 0 <= i <= |items|
      invariant ItemsReady(c, items[i..])
      invariant Calls(c, items) == calls + Calls(c, items[i..])
    {
      assert items[i..][0] == items[i] && items[i..][1..] == items[i + 1..];
      var call := ReconcileItem(c, items[i], providerRun);
      if call.None? {
        assert calls + [] == calls;
        return;
      }
      AppendAssoc(calls, [call.value], Calls(c, items[i + 1..]));
      calls := calls + [call.value];
      i := i + 1;
    }
    assert calls + [] == calls;
  }

  /** The k-th call is the k-th item's (by `ItemCall`, the call made with
      its built payload); when fewer calls are made than there are items,
      the item after the last call is read and its payload does not build,
      so no later item gets one; any item whose payload does not build
      bounds the number of calls, and when every payload builds every item
      gets a call. */
  lemma CallsStopAtFirstError(c: Cluster, items: seq<Object>)
    requires ItemsReady(c, items)
    ensures |Calls(c, items)| <= |items|
    ensures forall j :: 0 <= j < |Calls(c, items)| ==>
              BuildReady(c, items[j]) && ItemCall(c, items[j]) == Some(Calls(c, items)[j])
    ensures |Calls(c, items)| < |items| ==>
              BuildReady(c, items[|Calls(c, items)|]) && ItemCall(c, items[|Calls(c, items)|]).None?
    ensures forall k :: 0 <= k < |items| && BuildReady(c, items[k]) && ItemCall(c, items[k]).None? ==>
              |Calls(c, items)| <= k
    ensures (forall k :: 0 <= k < |items| ==> BuildReady(c, items[k]) && ItemCall(c, items[k]).Some?) ==>
              |Calls(c, items)| == |items|
  {
    CollectPrefix(items, ItemReadyFn(c), ItemStep(c));
    CollectStops(items, ItemStep(c));
  }
}
