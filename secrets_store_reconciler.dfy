/** cmd/secrets-store-reconciler/main.go: for every secret provider class in
    the cluster, a fresh payload is filled from the class and from the pods
    its `status.byPod` tracks (the mount path and file permission of the
    pod's CSI volume mount, and with pod identity off its node-publish
    secret), and the provider binary is invoked with it. Errors are logged
    and every class is processed. */
module SecretsStoreReconciler {
  import opened Wrappers
  import opened Unstructured
  import opened Cluster
  import opened Provider
  import opened SecretsStore

  /** The fields of `Payload`, as a value; `permissions` is a Go `int`. */
  datatype PayloadValue = PayloadValue(
    provider: string,
    mountPath: string,
    parameters: Parameters,
    permissions: int,
    secrets: Secrets,
    providerName: string)

  /** `&Payload{Parameters: Parameters{}, Secrets: Secrets{}}`. */
  const FreshPayload := PayloadValue("", "", ZeroParameters, 0, ZeroSecrets, "")

  /** The file mode 0644 a read-only mount asks for. */
  const ReadOnlyPermissions := 420

  /** The `Payload` struct, filled in place through its pointer. */
  class Payload {
    var provider: string
    var mountPath: string
    var parameters: Parameters
    var permissions: int
    var secrets: Secrets
    var providerName: string

    constructor ()
      ensures Value() == FreshPayload
    {
      provider := "";
      mountPath := "";
      parameters := ZeroParameters;
      permissions := 0;
      secrets := ZeroSecrets;
      providerName := "";
    }

    function Value(): PayloadValue
      reads this
    {
      PayloadValue(provider, mountPath, parameters, permissions, secrets, providerName)
    }
  }

  /** The payload after a step, with the error the step returned. */
  datatype Outcome = Outcome(payload: PayloadValue, error: Option<Error>)

  // ---------------------------------------------------------------------
  // addK8sSecretsToPayload

  /** The payload with the credentials of secret `secretsName` of
      `namespace`: the secret's `clientid` and `clientsecret` decoded over
      the old credentials; only the credentials change, and nothing does
      when the secret cannot be read, which is the lookup error. */
  function AddK8sSecrets(c: Cluster, secretsName: string, namespace: string, p: PayloadValue): (o: Outcome)
    ensures o.payload == p.(secrets := o.payload.secrets)
    ensures o.error.Some? ==> o.payload == p
    ensures var key := ObjectKey(namespace, secretsName);
            && (o.error.None? <==> key in c.secrets && c.secrets[key].Found?)
            && (o.error.None? ==> o.payload.secrets == DecodeSecrets(SecretStrings(c.secrets[key].value.data), p.secrets))
            && (o.error.Some? ==> o.error == Some(Api(Get(c.secrets, key).error)))
  {
    match CredentialsFromSecret(c, secretsName, namespace, p.secrets)
    case Err(e) => Outcome(p, Some(e))
    case Ok(secrets) => Outcome(p.(secrets := secrets), None)
  }

  method AddK8sSecretsToPayload(c: Cluster, secretsName: string, namespace: string, payload: Payload)
    returns (err: Option<Error>)
    modifies payload
    ensures Outcome(payload.Value(), err) == AddK8sSecrets(c, secretsName, namespace, old(payload.Value()))
  {
    var secret := GetK8sSecret(c, secretsName, namespace);
    if secret.Err? {
      return Some(secret.error);
    }
    var k8sSecrets := SecretDataToStrings(secret.value.data);
    payload.secrets := DecodeSecrets(k8sSecrets, payload.secrets);
    return None;
  }

  // ---------------------------------------------------------------------
  // podInfoToPayload: the volume loop

  /** The secret ref and the mount name the volume loop settles on. */
  datatype VolumeChoice = VolumeChoice(secretsName: string, mountName: string)

  /** Both come from the last volume with a CSI source, whatever its driver;
      the secret ref is read whatever `usePodIdentity` says. */
  function ChosenVolume(vols: seq<Volume>): VolumeChoice
    requires CsiRefsPresent(vols, None)
  {
    match LastCsiVolume(vols, None)
    case None => VolumeChoice("", "")
    case Some(k) => VolumeChoice(vols[k].csi.value.nodePublishSecretRef.value, vols[k].name)
  }

  /** The loop over `pod.Spec.Volumes`. */
  method ScanVolumes(vols: seq<Volume>) returns (secretsName: string, mountName: string)
    requires CsiRefsPresent(vols, None)
    ensures VolumeChoice(secretsName, mountName) == ChosenVolume(vols)
  {
    secretsName, mountName := "", "";
    for i := 0 to |vols|
      invariant VolumeChoice(secretsName, mountName) == ChosenVolume(vols[..i])
    {
      LastCsiVolumeExtend(vols, None, i);
      var vol := vols[i];
      if vol.csi.None? {
        continue;
      }
      secretsName := vol.csi.value.nodePublishSecretRef.value;
      mountName := vol.name;
    }
    assert vols[..|vols|] == vols;
  }

  // ---------------------------------------------------------------------
  // podInfoToPayload: the container and mount loops

  /** Every volume mount of the pod, container by container, in order. */
  function Mounts(containers: seq<Container>): seq<VolumeMount> {
    if containers == [] then []
    else Mounts(containers[..|containers| - 1]) + containers[|containers| - 1].volumeMounts
  }

  /** A mount is visited exactly when some container has it. */
  lemma {:induction false} MountsContents(containers: seq<Container>, m: VolumeMount)
    ensures m in Mounts(containers) <==> exists i :: 0 <= i < |containers| && m in containers[i].volumeMounts
    decreases |containers|
  {
    if containers != [] {
      var n := |containers| - 1;
      MountsContents(containers[..n], m);
      assert forall i :: 0 <= i < n ==> containers[..n][i] == containers[i];
    }
  }

  /** The two payload fields the mount loops write. */
  datatype MountState = MountState(mountPath: string, permissions: int)

  /** One mount: one named `mountName` sets the mount path, and the
      read-only permission when it is read-only. */
  function MountStep(s: MountState, m: VolumeMount, mountName: string): MountState {
    if m.name != mountName then s
    else MountState(m.mountPath, if m.readOnly then ReadOnlyPermissions else s.permissions)
  }

  /** The fields after visiting `mounts` in order, starting from `s`. */
  function ScanMounts(mounts: seq<VolumeMount>, mountName: string, s: MountState): MountState {
    if mounts == [] then s
    else MountStep(ScanMounts(mounts[..|mounts| - 1], mountName, s), mounts[|mounts| - 1], mountName)
  }

  /** Visiting `a` then `b` is visiting `a + b`. */
  lemma {:induction false} ScanMountsAppend(a: seq<VolumeMount>, b: seq<VolumeMount>, mountName: string, s: MountState)
    ensures ScanMounts(a + b, mountName, s) == ScanMounts(b, mountName, ScanMounts(a, mountName, s))
    decreases |b|
  {
    if b == [] {
      assert a + b == a;
    } else {
      var init := b[..|b| - 1];
      ScanMountsAppend(a, init, mountName, s);
      assert (a + b)[..|a + b| - 1] == a + init;
      assert (a + b)[|a + b| - 1] == b[|b| - 1];
    }
  }

  /** The mount path is that of the last mount named `mountName`; with no
      such mount, neither field changes. */
  lemma {:induction false} ScanMountsPath(mounts: seq<VolumeMount>, mountName: string, s: MountState)
    ensures (forall k :: 0 <= k < |mounts| ==> mounts[k].name != mountName) ==> ScanMounts(mounts, mountName, s) == s
    ensures forall k :: 0 <= k < |mounts| && mounts[k].name == mountName
                        && (forall j :: k < j < |mounts| ==> mounts[j].name != mountName)
                        ==> ScanMounts(mounts, mountName, s).mountPath == mounts[k].mountPath
    decreases |mounts|
  {
    if mounts != [] {
      var n := |mounts| - 1;
      var init := mounts[..n];
      ScanMountsPath(init, mountName, s);
      assert forall j :: 0 <= j < n ==> init[j] == mounts[j];
    }
  }

  /** The permission becomes the read-only one exactly when some mount named
      `mountName` is read-only (not only the last such mount), and is kept
      otherwise. */
  lemma {:induction false} ScanMountsPermissions(mounts: seq<VolumeMount>, mountName: string, s: MountState)
    ensures ScanMounts(mounts, mountName, s).permissions
            == if exists k :: 0 <= k < |mounts| && mounts[k].name == mountName && mounts[k].readOnly
               then ReadOnlyPermissions else s.permissions
    decreases |mounts|
  {
    if mounts != [] {
      var n := |mounts| - 1;
      var init := mounts[..n];
      ScanMountsPermissions(init, mountName, s);
      assert forall j :: 0 <= j < n ==> init[j] == mounts[j];
      if exists k :: 0 <= k < n && init[k].name == mountName && init[k].readOnly {
        var k :| 0 <= k < n && init[k].name == mountName && init[k].readOnly;
        assert mounts[k].name == mountName && mounts[k].readOnly;
      }
    }
  }

  /** The nested loops over the containers and their volume mounts. */
  method SelectMount(payload: Payload, containers: seq<Container>, mountName: string)
    modifies payload
    ensures var m := ScanMounts(Mounts(containers), mountName, MountState(old(payload.mountPath), old(payload.permissions)));
            payload.Value() == old(payload.Value()).(mountPath := m.mountPath, permissions := m.permissions)
  {
    ghost var s0 := MountState(payload.mountPath, payload.permissions);
    for i := 0 to |containers|
      invariant MountState(payload.mountPath, payload.permissions) == ScanMounts(Mounts(containers[..i]), mountName, s0)
      invariant payload.Value() == old(payload.Value()).(mountPath := payload.mountPath, permissions := payload.permissions)
    {
      var mounts := containers[i].volumeMounts;
      ghost var before := MountState(payload.mountPath, payload.permissions);
      for j := 0 to |mounts|
        invariant MountState(payload.mountPath, payload.permissions) == ScanMounts(mounts[..j], mountName, before)
        invariant payload.Value() == old(payload.Value()).(mountPath := payload.mountPath, permissions := payload.permissions)
      {
        assert mounts[..j + 1][..j] == mounts[..j];
        var volM := mounts[j];
        if mountName == volM.name {
          payload.mountPath := volM.mountPath;
          if volM.readOnly {
            payload.permissions := ReadOnlyPermissions;
          }
        }
      }
      assert mounts[..|mounts|] == mounts;
      ScanMountsAppend(Mounts(containers[..i]), mounts, mountName, s0);
      assert containers[..i + 1][..i] == containers[..i];
    }
    assert containers[..|containers|] == containers;
  }

  // ---------------------------------------------------------------------
  // podInfoToPayload

  /** What reading `entry` needs to not panic: it is a map of strings and
      the pod it names, when it can be fetched, has a secret ref on each CSI
      volume. */
  predicate EntryReady(c: Cluster, entry: Value) {
    PodEntry(entry) && FetchedPodHasCsiRefs(c, EntryKey(entry), None)
  }

  /** When the step for `entry` fails, whatever the payload: no client can
      be made, or (with "false") the secret named by the CSI volume of its
      pod (the zero pod when the request fails) is not in the cluster. */
  predicate PodStepFails(c: Cluster, entry: Value, usePodIdentity: string)
    requires EntryReady(c, entry)
  {
    var fetched := Get(c.pods, EntryKey(entry));
    || fetched == Err(ClientError)
    || (usePodIdentity == "false"
        && var key := ObjectKey(EntryKey(entry).namespace, ChosenVolume(fetched.GetOr(EmptyPod).volumes).secretsName);
        !(key in c.secrets && c.secrets[key].Found?))
  }

  /** Every entry the pod loop reaches is `EntryReady`: the first one, and
      each later one as long as no earlier step failed. */
  predicate EntriesReady(c: Cluster, entries: seq<Value>, usePodIdentity: string)
    decreases |entries|
  {
    entries != [] ==>
      && EntryReady(c, entries[0])
      && (!PodStepFails(c, entries[0], usePodIdentity) ==> EntriesReady(c, entries[1..], usePodIdentity))
  }

  /** One `byPod` entry: fetch the pod (a zero pod when the request fails),
      pick the mount path and permission, then (with `usePodIdentity`
      "false") add the secret; only a client that cannot be made, or a
      secret that cannot be read, is an error, and only the second leaves
      the mount path and permission of the entry's pod set. */
  function PodStep(c: Cluster, p: PayloadValue, entry: Value, usePodIdentity: string): (o: Outcome)
    requires EntryReady(c, entry)
    ensures o.error.Some? <==> PodStepFails(c, entry, usePodIdentity)
    ensures Get(c.pods, EntryKey(entry)) != Err(ClientError) ==>
              var pod := Get(c.pods, EntryKey(entry)).GetOr(EmptyPod);
              var m := ScanMounts(Mounts(pod.containers), ChosenVolume(pod.volumes).mountName,
                                  MountState(p.mountPath, p.permissions));
              o.payload.mountPath == m.mountPath && o.payload.permissions == m.permissions
  {
    var fetched := Get(c.pods, EntryKey(entry));
    if fetched == Err(ClientError) then Outcome(p, Some(Context("creating client", Api(ClientError))))
    else
      var pod := fetched.GetOr(EmptyPod);
      var choice := ChosenVolume(pod.volumes);
      var m := ScanMounts(Mounts(pod.containers), choice.mountName, MountState(p.mountPath, p.permissions));
      var p1 := p.(mountPath := m.mountPath, permissions := m.permissions);
      if usePodIdentity == "false" then
        var o := AddK8sSecrets(c, choice.secretsName, EntryKey(entry).namespace, p1);
        if o.error.Some? then Outcome(o.payload, Some(Context("forming secrets", o.error.value))) else o
      else Outcome(p1, None)
  }

  /** The pod loop; the first failing entry ends it. */
  function PodsFold(c: Cluster, p: PayloadValue, entries: seq<Value>, usePodIdentity: string): Outcome
    requires EntriesReady(c, entries, usePodIdentity)
    decreases |entries|
  {
    if entries == [] then Outcome(p, None)
    else
      var o := PodStep(c, p, entries[0], usePodIdentity);
      if o.error.Some? then o else PodsFold(c, o.payload, entries[1..], usePodIdentity)
  }

  /** The pod loop succeeds exactly when it reaches every entry and no step
      fails. */
  lemma {:induction false} PodsFoldSucceeds(c: Cluster, p: PayloadValue, entries: seq<Value>, usePodIdentity: string)
    requires EntriesReady(c, entries, usePodIdentity)
    ensures PodsFold(c, p, entries, usePodIdentity).error.None?
            <==> forall k :: 0 <= k < |entries| ==>
                   EntryReady(c, entries[k]) && !PodStepFails(c, entries[k], usePodIdentity)
    decreases |entries|
  {
    if entries != [] {
      var o := PodStep(c, p, entries[0], usePodIdentity);
      if o.error.None? {
        PodsFoldSucceeds(c, o.payload, entries[1..], usePodIdentity);
        assert forall k :: 0 < k < |entries| ==> entries[k] == entries[1..][k - 1];
      }
    }
  }

  /** The entries of `status.byPod`, when it is a list, are `EntriesReady`. */
  predicate TrackedReady(c: Cluster, obj: Object, usePodIdentity: string) {
    var r := NestedSlice(obj, "status", "byPod");
    r.Ok? && r.value.Some? ==> EntriesReady(c, r.value.value, usePodIdentity)
  }

  function PodInfo(c: Cluster, p: PayloadValue, obj: Object, spcName: string, usePodIdentity: string): Outcome
    requires TrackedReady(c, obj, usePodIdentity)
  {
    match NestedSlice(obj, "status", "byPod")
    case Err(e) => Outcome(p, Some(Context("parsing byPod", Access(e))))
    case Ok(None) => Outcome(p, Some(NoPodsTracked(spcName)))
    case Ok(Some(entries)) => PodsFold(c, p, entries, usePodIdentity)
  }

  method PodInfoToPayload(c: Cluster, payload: Payload, obj: Object, spcName: string, usePodIdentity: string)
    returns (err: Option<Error>)
    requires TrackedReady(c, obj, usePodIdentity)
    modifies payload
    ensures Outcome(payload.Value(), err) == PodInfo(c, old(payload.Value()), obj, spcName, usePodIdentity)
  {
    var statusPods := NestedSlice(obj, "status", "byPod");
    if statusPods.Err? {
      return Some(Context("parsing byPod", Access(statusPods.error)));
    }
    if statusPods.value.None? {
      return Some(NoPodsTracked(spcName));
    }
    var entries := statusPods.value.value;
    ghost var total := PodsFold(c, payload.Value(), entries, usePodIdentity);
    var i := 0;
    assert entries[0..] == entries;
    while i < |entries|
      invariant 0 <= i <= |entries|
      invariant EntriesReady(c, entries[i..], usePodIdentity)
      invariant PodsFold(c, payload.Value(), entries[i..], usePodIdentity) == total
    {
      assert entries[i..][0] == entries[i] && entries[i..][1..] == entries[i + 1..];
      var key := EntryKey(entries[i]);
      var fetched := Get(c.pods, key);
      if fetched == Err(ClientError) {
        return Some(Context("creating client", Api(ClientError)));
      }
      // any other failure of the request is ignored and leaves the pod zero
      var pod := fetched.GetOr(EmptyPod);
      var secretsName, mountName := ScanVolumes(pod.volumes);
      SelectMount(payload, pod.containers, mountName);
      if usePodIdentity == "false" {
        var e := AddK8sSecretsToPayload(c, secretsName, key.namespace, payload);
        if e.Some? {
          return Some(Context("forming secrets", e.value));
        }
      }
      i := i + 1;
    }
    return None;
  }

  /** One entry changes only the mount path, the permission and the
      credentials, and the permission only to the read-only one. */
  lemma PodStepFrame(c: Cluster, p: PayloadValue, entry: Value, usePodIdentity: string)
    requires EntryReady(c, entry)
    ensures var o := PodStep(c, p, entry, usePodIdentity);
            && o.payload == p.(mountPath := o.payload.mountPath, permissions := o.payload.permissions,
                               secrets := o.payload.secrets)
            && (usePodIdentity != "false" ==> o.payload.secrets == p.secrets)
            && (o.payload.permissions == p.permissions || o.payload.permissions == ReadOnlyPermissions)
  {
    var fetched := Get(c.pods, EntryKey(entry));
    if fetched != Err(ClientError) {
      var pod := fetched.GetOr(EmptyPod);
      ScanMountsPermissions(Mounts(pod.containers), ChosenVolume(pod.volumes).mountName, MountState(p.mountPath, p.permissions));
    }
  }

  /** The pod loop changes only the mount path, the permission and the
      credentials, and the credentials only when `usePodIdentity` is
      "false"; a read-only permission is never taken back. */
  lemma {:induction false} PodsFoldFrame(c: Cluster, p: PayloadValue, entries: seq<Value>, usePodIdentity: string)
    requires EntriesReady(c, entries, usePodIdentity)
    ensures var o := PodsFold(c, p, entries, usePodIdentity);
            && o.payload == p.(mountPath := o.payload.mountPath, permissions := o.payload.permissions,
                               secrets := o.payload.secrets)
            && (usePodIdentity != "false" ==> o.payload.secrets == p.secrets)
            && (o.payload.permissions == p.permissions || o.payload.permissions == ReadOnlyPermissions)
    decreases |entries|
  {
    if entries != [] {
      var o := PodStep(c, p, entries[0], usePodIdentity);
      PodStepFrame(c, p, entries[0], usePodIdentity);
      if o.error.None? {
        PodsFoldFrame(c, o.payload, entries[1..], usePodIdentity);
      }
    }
  }

  /** The same for the whole of `podInfoToPayload`. */
  lemma PodInfoFrame(c: Cluster, p: PayloadValue, obj: Object, spcName: string, usePodIdentity: string)
    requires TrackedReady(c, obj, usePodIdentity)
    ensures var o := PodInfo(c, p, obj, spcName, usePodIdentity);
            && o.payload == p.(mountPath := o.payload.mountPath, permissions := o.payload.permissions,
                               secrets := o.payload.secrets)
            && (usePodIdentity != "false" ==> o.payload.secrets == p.secrets)
            && (o.payload.permissions == p.permissions || o.payload.permissions == ReadOnlyPermissions)
  {
    var r := NestedSlice(obj, "status", "byPod");
    if r.Ok? && r.value.Some? {
      PodsFoldFrame(c, p, r.value.value, usePodIdentity);
    }
  }

  /** A pod whose request fails, other than for want of a client, is read
      as the zero pod: it has no CSI volume, so only a mount named "" can
      match, and with pod identity off the secret named "" is looked up. */
  lemma UnreadablePodIsZero(c: Cluster, p: PayloadValue, entry: Value, usePodIdentity: string)
    requires EntryReady(c, entry)
    requires Get(c.pods, EntryKey(entry)).Err? && Get(c.pods, EntryKey(entry)) != Err(ClientError)
    ensures usePodIdentity != "false" ==> PodStep(c, p, entry, usePodIdentity) == Outcome(p, None)
    ensures usePodIdentity == "false" ==>
              PodStep(c, p, entry, usePodIdentity).payload.(secrets := p.secrets) == p
  {
    assert ChosenVolume(EmptyPod.volumes) == VolumeChoice("", "");
    assert Mounts(EmptyPod.containers) == [];
  }

  // ---------------------------------------------------------------------
  // buildPayloadFromSPC

  /** What building a payload from `item` needs to not panic: once the
      parameters and the provider are read, the pod loop's entries are
      `EntriesReady` under the class's `usePodIdentity`. */
  predicate ItemReady(c: Cluster, item: Object) {
    var m := GetMapFromObjectSpec(item, "parameters");
    m.Ok? && NestedString(item, "spec", "provider").Ok? ==> TrackedReady(c, item, Pick(m.value, "usePodIdentity", ""))
  }

  function Build(c: Cluster, item: Object, p: PayloadValue): Outcome
    requires ItemReady(c, item)
  {
    var spcName := GetName(item);
    var p1 := p.(providerName := spcName);
    match GetMapFromObjectSpec(item, "parameters")
    case Err(e) => Outcome(p1, Some(Context("receiving params", e)))
    case Ok(parameters) =>
      var p2 := p1.(parameters := DecodeParameters(parameters, p1.parameters));
      match NestedString(item, "spec", "provider")
      case Err(e) => Outcome(p2.(provider := ""), Some(Context("slicing provider", Access(e))))
      case Ok(provider) =>
        var p3 := p2.(provider := provider.GetOr(""));
        var usePodIdentity := Pick(parameters, "usePodIdentity", "");
        var o := PodInfo(c, p3, item, spcName, usePodIdentity);
        if o.error.Some? then Outcome(o.payload, Some(Context("podInfoToPayload", o.error.value))) else o
  }

  method BuildPayloadFromSpc(c: Cluster, item: Object, payload: Payload) returns (err: Option<Error>)
    requires ItemReady(c, item)
    modifies payload
    ensures Outcome(payload.Value(), err) == Build(c, item, old(payload.Value()))
  {
    var spcName := GetName(item);
    payload.providerName := spcName;
    var parameters := GetMapFromObjectSpec(item, "parameters");
    if parameters.Err? {
      return Some(Context("receiving params", parameters.error));
    }
    payload.parameters := DecodeParameters(parameters.value, payload.parameters);
    var providerType := NestedString(item, "spec", "provider");
    payload.provider := if providerType.Ok? then providerType.value.GetOr("") else "";
    if providerType.Err? {
      return Some(Context("slicing provider", Access(providerType.error)));
    }
    var usePodIdentity := if "usePodIdentity" in parameters.value then parameters.value["usePodIdentity"] else "";
    var e := PodInfoToPayload(c, payload, item, spcName, usePodIdentity);
    if e.Some? {
      return Some(Context("podInfoToPayload", e.value));
    }
    return None;
  }

  /** Built from a fresh payload, the permission is 0 or the read-only 420,
      and the payload is named after the class whatever happens. */
  lemma FreshBuildPermissions(c: Cluster, item: Object)
    requires ItemReady(c, item)
    ensures Build(c, item, FreshPayload).payload.providerName == GetName(item)
    ensures Build(c, item, FreshPayload).payload.permissions == 0
            || Build(c, item, FreshPayload).payload.permissions == ReadOnlyPermissions
  {
    var m := GetMapFromObjectSpec(item, "parameters");
    var provider := NestedString(item, "spec", "provider");
    if m.Ok? && provider.Ok? {
      var p3 := FreshPayload.(providerName := GetName(item), parameters := DecodeParameters(m.value, ZeroParameters),
                              provider := provider.value.GetOr(""));
      PodInfoFrame(c, p3, item, GetName(item), Pick(m.value, "usePodIdentity", ""));
    }
  }

  // ---------------------------------------------------------------------
  // fetchProviderBinary

  /** The invocation `fetchProviderBinary` makes for payload `p`: the mount
      path as target path and the JSON rendering of the permission; the
      info line, then `spew.Dump(args)` of the whole argument list. */
  function ProviderCallFor(p: PayloadValue): ProviderCall {
    var binary := ProviderBinaryPath(p.provider);
    var args := ProviderArgs(EncodeParameters(p.parameters), EncodeSecrets(p.secrets), p.mountPath, EncodeInt(p.permissions));
    ProviderCall(binary, args, InfoLine(binary, args) + args)
  }

  /** `providerRun` is the outcome of running the binary; it is logged and
      otherwise ignored, and marshalling cannot fail, so no error is
      returned. */
  method FetchProviderBinary(payload: Payload, providerRun: ProviderCall -> bool) returns (call: ProviderCall, err: Option<Error>)
    ensures call == ProviderCallFor(payload.Value())
    ensures err.None?
  {
    var binary := ProviderBinaryPath(payload.provider);
    var parametersStr := EncodeParameters(payload.parameters);
    var secretStr := EncodeSecrets(payload.secrets);
    var permissionStr := EncodeInt(payload.permissions);
    var args := ProviderArgs(parametersStr, secretStr, payload.mountPath, permissionStr);
    call := ProviderCall(binary, args, InfoLine(binary, args) + args);
    var succeeded := providerRun(call);
    if !succeeded {
      // the failure and the provider's stderr are logged
    }
    return call, None;
  }

  /** The permission argument renders the payload's permission, "420" or
      "0" for the two values a fresh payload can reach; the info line leaves
      the JSON attributes and secrets out (unless one is the mount path),
      but the dump of the arguments shows both. */
  lemma ProviderCallShape(p: PayloadValue)
    ensures ProviderCallFor(p).args[5] == p.mountPath
    ensures ProviderCallFor(p).args[7] == EncodeInt(p.permissions)
    ensures p.permissions == ReadOnlyPermissions ==> ProviderCallFor(p).args[7] == "420"
    ensures p.permissions == 0 ==> ProviderCallFor(p).args[7] == "0"
    ensures EncodeParameters(p.parameters) in ProviderCallFor(p).logged[..6]
            ==> EncodeParameters(p.parameters) == p.mountPath
    ensures EncodeSecrets(p.secrets) in ProviderCallFor(p).logged[..6]
            ==> EncodeSecrets(p.secrets) == p.mountPath
    ensures EncodeParameters(p.parameters) in ProviderCallFor(p).logged[6..]
            && EncodeSecrets(p.secrets) in ProviderCallFor(p).logged[6..]
  {
    var binary := ProviderBinaryPath(p.provider);
    var permission := EncodeInt(p.permissions);
    var args := ProviderArgs(EncodeParameters(p.parameters), EncodeSecrets(p.secrets), p.mountPath, permission);
    InfoLineRedacts(p.provider, EncodeParameters(p.parameters), EncodeSecrets(p.secrets), p.mountPath, permission);
    PermissionRendering();
    assert permission[0] == '-' || '0' <= permission[0] <= '9';
    assert ProviderCallFor(p).logged[..6] == InfoLine(binary, args);
    assert ProviderCallFor(p).logged[6..] == args;
  }

  // ---------------------------------------------------------------------
  // main

  /** The call `main` makes for one class: with the payload built from a
      fresh one, whether or not the build failed. */
  function ItemCall(c: Cluster, item: Object): ProviderCall
    requires ItemReady(c, item)
  {
    ProviderCallFor(Build(c, item, FreshPayload).payload)
  }

  /** With the fresh payload `main` starts from, the permission argument is
      "420" (some matching mount is read-only) or "0". */
  lemma FreshPermissionArgument(c: Cluster, item: Object)
    requires ItemReady(c, item)
    ensures ItemCall(c, item).args[7] == "420" || ItemCall(c, item).args[7] == "0"
  {
    FreshBuildPermissions(c, item);
    ProviderCallShape(Build(c, item, FreshPayload).payload);
  }

  /** One iteration of the loop in `main`. */
  method ReconcileItem(c: Cluster, item: Object, providerRun: ProviderCall -> bool) returns (call: ProviderCall)
    requires ItemReady(c, item)
    ensures call == ItemCall(c, item)
  {
    var payload := new Payload();
    var err := BuildPayloadFromSpc(c, item, payload);
    // a build error is logged and the provider invoked anyway
    var made, fetchErr := FetchProviderBinary(payload, providerRun);
    return made;
  }

  /** The calls `main` makes, one per listed class, in order. */
  function ItemCalls(c: Cluster, items: seq<Object>): (r: seq<ProviderCall>)
    requires forall item | item in items :: ItemReady(c, item)
    ensures |r| == |items|
    ensures forall k :: 0 <= k < |items| ==> r[k] == ItemCall(c, items[k])
  {
    seq(|items|, k requires 0 <= k < |items| => ItemCall(c, items[k]))
  }

  /** `main`: every listed class gets exactly one provider call, in order,
      even when its payload could not be built or the listing failed. */
  method Run(c: Cluster, listing: Listing, providerRun: ProviderCall -> bool) returns (calls: seq<ProviderCall>)
    requires forall item | item in listing.items :: ItemReady(c, item)
    ensures calls == ItemCalls(c, listing.items)
  {
    // a listing error is logged and the items are processed anyway
    var items := listing.items;
    ghost var all := ItemCalls(c, items);
    calls := [];
    var i := 0;
    while i < |items|
      invariant 0 <= i <= |items|
      invariant calls == all[..i]
    {
      var call := ReconcileItem(c, items[i], providerRun);
      assert call == all[i];
      PrefixStep(all, i);
      calls := calls + [call];
      i := i + 1;
    }
    assert all[..i] == all;
  }
}
