/** pkg/rotation_reconciler/reconciler.go: one rotation tick. For every
    SecretProviderClassPodStatus binding, a fresh payload is filled from the
    binding's status, its secret provider class and, when pod identity is
    off, the node-publish secret of its pod; the payload is then dumped.
    The provider call is built by `FetchProviderBinary` but the tick does
    not make it. */
module RotationReconciler {
  import opened Wrappers
  import opened Unstructured
  import opened Cluster
  import opened Provider
  import opened SecretsStore

  /** The CSI driver whose volumes carry the node-publish secret ref. */
  const CsiDriverName := "secrets-store.csi.k8s.io"

  /** The fields of `Payload`, as a value. */
  datatype PayloadValue = PayloadValue(
    provider: string,
    targetPath: string,
    parameters: Parameters,
    secrets: Secrets,
    providerName: string,
    currentObjects: seq<map<string, string>>)

  /** `var payload Payload`. */
  const ZeroPayload := PayloadValue("", "", ZeroParameters, ZeroSecrets, "", [])

  /** The `Payload` struct, filled field by field. */
  class Payload {
    var provider: string
    var targetPath: string
    var parameters: Parameters
    var secrets: Secrets
    var providerName: string
    var currentObjects: seq<map<string, string>>

    constructor ()
      ensures Value() == ZeroPayload
    {
      provider := "";
      targetPath := "";
      parameters := ZeroParameters;
      secrets := ZeroSecrets;
      providerName := "";
      currentObjects := [];
    }

    function Value(): PayloadValue
      reads this
    {
      PayloadValue(provider, targetPath, parameters, secrets, providerName, currentObjects)
    }
  }

  /** The payload after a step, with the error the step returned. */
  datatype Outcome = Outcome(payload: PayloadValue, error: Option<Error>)

  // ---------------------------------------------------------------------
  // getNodePublishSecretRefFromPod

  /** The secret ref of the last volume of driver `CsiDriverName`, "" when
      there is none. */
  function NodePublishSecretRef(vols: seq<Volume>): string
    requires CsiRefsPresent(vols, Some(CsiDriverName))
  {
    match LastCsiVolume(vols, Some(CsiDriverName))
    case None => ""
    case Some(k) => vols[k].csi.value.nodePublishSecretRef.value
  }

  /** The loop over `pod.Spec.Volumes`; reading the ref of a matching volume
      without one would dereference nil, hence the precondition. */
  method GetNodePublishSecretRefFromPod(pod: Pod) returns (secretsName: string)
    requires CsiRefsPresent(pod.volumes, Some(CsiDriverName))
    ensures secretsName == NodePublishSecretRef(pod.volumes)
  {
    var vols := pod.volumes;
    secretsName := "";
    for i := 0 to |vols|
      invariant CsiRefsPresent(vols[..i], Some(CsiDriverName))
      invariant secretsName == NodePublishSecretRef(vols[..i])
    {
      LastCsiVolumeExtend(vols, Some(CsiDriverName), i);
      assert CsiRefsPresent(vols[..i + 1], Some(CsiDriverName)) by {
        assert forall k :: 0 <= k < i + 1 ==> vols[..i + 1][k] == vols[k];
      }
      var vol := vols[i];
      if vol.csi.None? || vol.csi.value.driver != CsiDriverName {
        continue;
      }
      secretsName := vol.csi.value.nodePublishSecretRef.value;
    }
    assert vols[..|vols|] == vols;
  }

  /** A volume that is not of driver `CsiDriverName`, inserted anywhere,
      changes nothing: volumes without CSI or of another driver never affect
      the ref. */
  lemma NodePublishSecretRefIgnoresOtherVolumes(front: seq<Volume>, v: Volume, back: seq<Volume>)
    requires CsiRefsPresent(front + back, Some(CsiDriverName))
    requires !CsiMatches(v, Some(CsiDriverName))
    ensures CsiRefsPresent(front + [v] + back, Some(CsiDriverName))
    ensures NodePublishSecretRef(front + [v] + back) == NodePublishSecretRef(front + back)
  {
    CsiRefsPresentInsert(front, v, back, Some(CsiDriverName));
    LastCsiVolumeInsert(front, v, back, Some(CsiDriverName));
    var ins := front + [v] + back;
    match LastCsiVolume(front + back, Some(CsiDriverName))
    case None =>
    case Some(j) =>
      if j < |front| {
        assert ins[j] == (front + back)[j];
      } else {
        assert ins[j + 1] == (front + back)[j];
      }
  }

  /** A volume of driver `CsiDriverName` appended at the end decides the ref. */
  lemma NodePublishSecretRefLastWins(vols: seq<Volume>, v: Volume)
    requires CsiRefsPresent(vols, Some(CsiDriverName))
    requires CsiMatches(v, Some(CsiDriverName)) && v.csi.value.nodePublishSecretRef.Some?
    ensures CsiRefsPresent(vols + [v], Some(CsiDriverName))
    ensures NodePublishSecretRef(vols + [v]) == v.csi.value.nodePublishSecretRef.value
  {
    assert (vols + [v])[|vols|] == v;
  }

  // ---------------------------------------------------------------------
  // buildK8sSecretsPayload

  /** The payload with the credentials of secret `secretsName` of
      `namespace`: the secret's `clientid` and `clientsecret` decoded over
      the old credentials; only the credentials change, and nothing does
      when the secret cannot be read, which is the lookup error. */
  function BuildK8sSecrets(c: Cluster, secretsName: string, namespace: string, p: PayloadValue): (o: Outcome)
    ensures o.payload == p.(secrets := o.payload.secrets)
    ensures o.error.Some? ==> o.payload == p
    ensures var key := ObjectKey(namespace, secretsName);
            && (o.error.None? <==> key in c.secrets && c.secrets[key].Found?)
            && (o.error.None? ==> o.payload.secrets == DecodeSecrets(SecretStrings(c.secrets[key].value.data), p.secrets))
            && (o.error.Some? ==> o.error == Some(Api(Get(c.secrets, key).error)))
  {
    match CredentialsFromSecret(c, secretsName, namespace, p.secrets)
    case Err(e) => Outcome(p, Some(e))
    case Ok(secrets) => Outcome(p.(secrets := secrets), None)
  }

  method BuildK8sSecretsPayload(c: Cluster, secretsName: string, namespace: string, payload: Payload)
    returns (err: Option<Error>)
    modifies payload
    ensures Outcome(payload.Value(), err) == BuildK8sSecrets(c, secretsName, namespace, old(payload.Value()))
  {
    var secret := GetK8sSecret(c, secretsName, namespace);
    if secret.Err? {
      return Some(secret.error);
    }
    var k8sSecrets := SecretDataToStrings(secret.value.data);
    payload.secrets := DecodeSecrets(k8sSecrets, payload.secrets);
    return None;
  }

  // ---------------------------------------------------------------------
  // fetchProviderBinary

  /** The invocation `fetchProviderBinary` makes for payload `p`; its only
      diagnostic is the info line: the binary, the redaction text and
      `args[4:]`. */
  function ProviderCallFor(p: PayloadValue): ProviderCall {
    var binary := ProviderBinaryPath(p.provider);
    var args := ProviderArgs(EncodeParameters(p.parameters), EncodeSecrets(p.secrets), p.targetPath, "420");
    ProviderCall(binary, args, InfoLine(binary, args))
  }

  /** `providerRun` is the outcome of running the binary; it is logged and
      otherwise ignored, and marshalling cannot fail, so no error is
      returned. */
  method FetchProviderBinary(payload: Payload, providerRun: ProviderCall -> bool) returns (call: ProviderCall, err: Option<Error>)
    ensures call == ProviderCallFor(payload.Value())
    ensures err.None?
  {
    var binary := ProviderBinaryPath(payload.provider);
    var parametersStr := EncodeParameters(payload.parameters);
    var secretStr := EncodeSecrets(payload.secrets);
    var args := ProviderArgs(parametersStr, secretStr, payload.targetPath, "420");
    call := ProviderCall(binary, args, InfoLine(binary, args));
    var succeeded := providerRun(call);
    if !succeeded {
      // the failure and the provider's stderr are logged
    }
    return call, None;
  }

  /** The call passes the JSON attributes and secrets and the permission
      "420"; everything it logs leaves both JSON texts out unless one of
      them is the target path itself. */
  lemma ProviderCallRedacts(p: PayloadValue)
    ensures |ProviderCallFor(p).args| == 8
    ensures ProviderCallFor(p).args[1] == EncodeParameters(p.parameters)
            && ProviderCallFor(p).args[3] == EncodeSecrets(p.secrets)
            && ProviderCallFor(p).args[5] == p.targetPath
            && ProviderCallFor(p).args[7] == "420"
    ensures EncodeParameters(p.parameters) in ProviderCallFor(p).logged ==> EncodeParameters(p.parameters) == p.targetPath
    ensures EncodeSecrets(p.secrets) in ProviderCallFor(p).logged ==> EncodeSecrets(p.secrets) == p.targetPath
  {
    InfoLineRedacts(p.provider, EncodeParameters(p.parameters), EncodeSecrets(p.secrets), p.targetPath, "420");
  }

  // ---------------------------------------------------------------------
  // Reconciler

  /** The binding's namespace and the three status fields the tick reads;
      a field that cannot be read is "". */
  datatype BindingFields = BindingFields(namespace: string, targetPath: string, podName: string, spcName: string)

  function ReadBinding(binding: Object): (f: BindingFields)
    ensures f.namespace == GetNamespace(binding)
    ensures StringFieldSet(binding, "status", "targetPath") ==> f.targetPath == binding["status"].fields["targetPath"].s
    ensures !StringFieldSet(binding, "status", "targetPath") ==> f.targetPath == ""
    ensures StringFieldSet(binding, "status", "podName") ==> f.podName == binding["status"].fields["podName"].s
    ensures !StringFieldSet(binding, "status", "podName") ==> f.podName == ""
    ensures StringFieldSet(binding, "status", "secretProviderClassName")
            ==> f.spcName == binding["status"].fields["secretProviderClassName"].s
    ensures !StringFieldSet(binding, "status", "secretProviderClassName") ==> f.spcName == ""
  {
    BindingFields(GetNamespace(binding),
                  GetStringFromObjectStatus(binding, "targetPath").GetOr(""),
                  GetStringFromObjectStatus(binding, "podName").GetOr(""),
                  GetStringFromObjectStatus(binding, "secretProviderClassName").GetOr(""))
  }

  /** The class named by the binding, the zero class when it cannot be
      fetched (the error is only logged). */
  function BindingSpc(c: Cluster, f: BindingFields): SecretProviderClass {
    Get(c.spcs, ObjectKey(f.namespace, f.spcName)).GetOr(EmptySpc)
  }

  /** The pod named by the binding, the zero pod when it cannot be fetched. */
  function BindingPod(c: Cluster, f: BindingFields): Pod {
    Get(c.pods, ObjectKey(f.namespace, f.podName)).GetOr(EmptyPod)
  }

  /** The payload before any secret is added: the target path, the class's
      provider, its parameters decoded into zero parameters, and its
      status objects. */
  function SpcPayload(c: Cluster, f: BindingFields): PayloadValue {
    var spc := BindingSpc(c, f);
    ZeroPayload.(targetPath := f.targetPath, provider := spc.provider,
                 parameters := DecodeParameters(spc.parameters, ZeroParameters),
                 currentObjects := spc.objects)
  }

  /** What reading `binding` needs to not panic: when the client can be
      made and the class turns pod identity off, the binding's pod has a
      secret ref on each volume of this driver. */
  predicate BindingReady(c: Cluster, binding: Object) {
    var f := ReadBinding(binding);
    c.clientOk && SpcPayload(c, f).parameters.usePodIdentity == "false"
    ==> CsiRefsPresent(BindingPod(c, f).volumes, Some(CsiDriverName))
  }

  /** What one binding does to the tick: dump a payload, or (`None`) end
      the tick. */
  function BindingStep(c: Cluster, binding: Object): Option<PayloadValue>
    requires BindingReady(c, binding)
  {
    if !c.clientOk then None
    else
      var f := ReadBinding(binding);
      var p := SpcPayload(c, f);
      if p.parameters.usePodIdentity != "false" then Some(p)
      else
        var ref := NodePublishSecretRef(BindingPod(c, f).volumes);
        if ref == "" then None
        else Some(BuildK8sSecrets(c, ref, f.namespace, p).payload)
  }

  /** `BindingReady` and `BindingStep` as the readiness and the step of the
      loop over the bindings; a binding that is not ready yields nothing. */
  function BindingReadyFn(c: Cluster): Object -> bool {
    binding => BindingReady(c, binding)
  }

  function BindingStepFn(c: Cluster): Object -> Option<PayloadValue> {
    binding => if BindingReady(c, binding) then BindingStep(c, binding) else None
  }

  /** Every binding the tick reaches is `BindingReady`: the first one, and
      each later one as long as no earlier binding ended the tick. */
  predicate TickReady(c: Cluster, bindings: seq<Object>) {
    Reached(bindings, BindingReadyFn(c), BindingStepFn(c))
  }

  /** The payloads one tick dumps: one per binding, up to the first binding
      that ends the tick. */
  function Tick(c: Cluster, bindings: seq<Object>): seq<PayloadValue>
    requires TickReady(c, bindings)
  {
    Collect(bindings, BindingStepFn(c))
  }

  /** The payloads from binding `i` on: binding `i`, which is ready, dumps
      its payload and those from binding `i + 1` on follow, unless binding
      `i` ends the tick. */
  lemma TickStep(c: Cluster, bindings: seq<Object>, i: nat)
    requires i < |bindings|
    requires TickReady(c, bindings[i..])
    ensures BindingReady(c, bindings[i])
    ensures BindingStep(c, bindings[i]).Some? ==> TickReady(c, bindings[i + 1..])
    ensures Tick(c, bindings[i..])
            == match BindingStep(c, bindings[i])
               case None => []
               case Some(p) => [p] + Tick(c, bindings[i + 1..])
  {
    assert bindings[i..][0] == bindings[i] && bindings[i..][1..] == bindings[i + 1..];
  }

  /** One binding: the body of the loop in `Reconciler`. */
  method ReconcileBinding(c: Cluster, binding: Object) returns (step: Option<PayloadValue>)
    requires BindingReady(c, binding)
    ensures step == BindingStep(c, binding)
  {
    var payload := new Payload();
    if !c.clientOk {
      return None;
    }
    var namespace := GetNamespace(binding);
    payload.targetPath := GetStringFromObjectStatus(binding, "targetPath").GetOr("");
    var podName := GetStringFromObjectStatus(binding, "podName").GetOr("");
    var spcName := GetStringFromObjectStatus(binding, "secretProviderClassName").GetOr("");
    ghost var f := BindingFields(namespace, payload.targetPath, podName, spcName);
    assert f == ReadBinding(binding);
    // a class or pod that cannot be fetched is logged and left zero
    var spc := Get(c.spcs, ObjectKey(namespace, spcName)).GetOr(EmptySpc);
    var podResult := Get(c.pods, ObjectKey(namespace, podName));
    var pod := podResult.GetOr(EmptyPod);
    assert pod == BindingPod(c, f);
    payload.provider := spc.provider;
    payload.parameters := DecodeParameters(spc.parameters, payload.parameters);
    payload.currentObjects := spc.objects;
    assert payload.Value() == SpcPayload(c, f);
    if payload.parameters.usePodIdentity == "false" {
      var secretRefName := GetNodePublishSecretRefFromPod(pod);
      if secretRefName == "" {
        return None;
      }
      var err := BuildK8sSecretsPayload(c, secretRefName, namespace, payload);
      // an error adding the secrets is logged and the payload dumped anyway
    }
    return Some(payload.Value());
  }

  /** One tick: a failure to list the bindings ends it before any binding is
      read; otherwise the bindings are visited in order and a stop ends it. */
  method Reconciler(c: Cluster, bindings: Result<seq<Object>, ApiError>) returns (dumped: seq<PayloadValue>)
    requires bindings.Ok? ==> TickReady(c, bindings.value)
    ensures bindings.Err? ==> dumped == []
    ensures bindings.Ok? ==> dumped == Tick(c, bindings.value)
  {
    if bindings.Err? {
      return [];
    }
    var items := bindings.value;
    dumped := [];
    var i := 0;
    assert items[0..] == items;
    while i < |items|
      invariant 0 <= i <= |items|
      invariant TickReady(c, items[i..])
      invariant Tick(c, items) == dumped + Tick(c, items[i..])
    {
      TickStep(c, items, i);
      var step := ReconcileBinding(c, items[i]);
      if step.None? {
        assert dumped + [] == dumped;
        return;
      }
      AppendAssoc(dumped, [step.value], Tick(c, items[i + 1..]));
      dumped := dumped + [step.value];
      i := i + 1;
    }
    assert Tick(c, items[i..]) == [];
    assert dumped + [] == dumped;
  }

  /** The k-th dumped payload is the k-th binding's, read from a ready
      binding; when fewer payloads are dumped than there are bindings, the
      binding after the last one dumped is read and ends the tick, so no
      later binding is read; a binding that ends the tick bounds the number
      of payloads dumped, and when every binding dumps one there is one per
      binding. */
  lemma TickStopsAtFirstStop(c: Cluster, bindings: seq<Object>)
    requires TickReady(c, bindings)
    ensures |Tick(c, bindings)| <= |bindings|
    ensures forall j :: 0 <= j < |Tick(c, bindings)| ==>
              BindingReady(c, bindings[j]) && BindingStep(c, bindings[j]) == Some(Tick(c, bindings)[j])
    ensures |Tick(c, bindings)| < |bindings| ==>
              BindingReady(c, bindings[|Tick(c, bindings)|]) && BindingStep(c, bindings[|Tick(c, bindings)|]).None?
    ensures forall k :: 0 <= k < |bindings| && BindingReady(c, bindings[k]) && BindingStep(c, bindings[k]).None? ==>
              |Tick(c, bindings)| <= k
    ensures (forall k :: 0 <= k < |bindings| ==> BindingReady(c, bindings[k]) && BindingStep(c, bindings[k]).Some?) ==>
              |Tick(c, bindings)| == |bindings|
  {
    CollectPrefix(bindings, BindingReadyFn(c), BindingStepFn(c));
    CollectStops(bindings, BindingStepFn(c));
  }

  /** When a binding stops the tick: exactly when the client cannot be made,
      or when the class turns pod identity off ("false") and the pod has no
      node-publish secret ref. */
  lemma BindingStopCondition(c: Cluster, binding: Object)
    requires BindingReady(c, binding)
    ensures var f := ReadBinding(binding);
            BindingStep(c, binding).None?
            <==> !c.clientOk
                 || (Pick(BindingSpc(c, f).parameters, "usePodIdentity", "") == "false"
                     && NodePublishSecretRef(BindingPod(c, f).volumes) == "")
  {
  }

  /** A class that cannot be fetched is only logged: the binding still
      dumps a payload, holding the binding's target path and zero values
      elsewhere. */
  lemma MissingSpcOnlyLogged(c: Cluster, binding: Object)
    requires BindingReady(c, binding)
    requires c.clientOk
    requires var f := ReadBinding(binding);
             Get(c.spcs, ObjectKey(f.namespace, f.spcName)).Err?
    ensures BindingStep(c, binding) == Some(ZeroPayload.(targetPath := ReadBinding(binding).targetPath))
  {
    var f := ReadBinding(binding);
    assert BindingSpc(c, f) == EmptySpc;
    assert SpcPayload(c, f).parameters == ZeroParameters;
  }

  /** What a dumped payload holds: the class's provider, parameters and
      status objects and the binding's target path, never a provider name;
      credentials only with pod identity "false", and then those of the
      pod's secret when it can be read. */
  lemma DumpedPayloadFields(c: Cluster, binding: Object)
    requires BindingReady(c, binding)
    requires BindingStep(c, binding).Some?
    ensures var f := ReadBinding(binding);
            var spc := BindingSpc(c, f);
            var p := BindingStep(c, binding).value;
            && p.provider == spc.provider
            && p.targetPath == f.targetPath
            && p.parameters == DecodeParameters(spc.parameters, ZeroParameters)
            && p.currentObjects == spc.objects
            && p.providerName == ""
            && (p.parameters.usePodIdentity != "false" ==> p.secrets == ZeroSecrets)
            && (p.parameters.usePodIdentity == "false" ==>
                  var ref := NodePublishSecretRef(BindingPod(c, f).volumes);
                  var key := ObjectKey(f.namespace, ref);
                  && ref != ""
                  && (key in c.secrets && c.secrets[key].Found? ==>
                        p.secrets == DecodeSecrets(SecretStrings(c.secrets[key].value.data), ZeroSecrets))
                  && (!(key in c.secrets && c.secrets[key].Found?) ==> p.secrets == ZeroSecrets))
  {
    var f := ReadBinding(binding);
    var p := SpcPayload(c, f);
    if p.parameters.usePodIdentity == "false" {
      var ref := NodePublishSecretRef(BindingPod(c, f).volumes);
      var secrets := CredentialsFromSecret(c, ref, f.namespace, ZeroSecrets);
    }
  }
}
