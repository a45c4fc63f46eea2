/** The cluster as plain input data: typed pod, secret and secret provider
    class records, the outcome of each `Get` against the cluster store, and
    the errors the code under model returns. */
module Cluster {
  import opened Wrappers
  import opened Unstructured

  newtype byte = x: int | 0 <= x < 256

  datatype ObjectKey = ObjectKey(namespace: string, name: string)

  /** What one `Get` of the cluster store yields for a key that exists in the
      data: the object, a failure to construct the client, or a failed
      request. A key absent from the data is "not found". */
  datatype Fetch<T> = Found(value: T) | ClientUnavailable | Failed(reason: string)

  datatype ApiError =
    | ClientError
    | NotFound(key: ObjectKey)
    | RequestFailed(key: ObjectKey, reason: string)

  /** `corev1.CSIVolumeSource`; the secret ref is `NodePublishSecretRef.Name`,
      `None` when the pointer is nil. */
  datatype CsiSource = CsiSource(driver: string, nodePublishSecretRef: Option<string>)
  datatype Volume = Volume(name: string, csi: Option<CsiSource>)
  datatype VolumeMount = VolumeMount(name: string, mountPath: string, readOnly: bool)
  datatype Container = Container(volumeMounts: seq<VolumeMount>)
  datatype Pod = Pod(uid: string, volumes: seq<Volume>, containers: seq<Container>)

  /** The zero `corev1.Pod` a failed `Get` leaves behind. */
  const EmptyPod := Pod("", [], [])

  datatype Secret = Secret(name: string, namespace: string, data: map<string, seq<byte>>)

  /** The typed `v1alpha1.SecretProviderClass` fields read by the rotation
      reconciler: `spec.provider`, `spec.parameters`, `status.objects`. */
  datatype SecretProviderClass = SecretProviderClass(
    provider: string,
    parameters: map<string, string>,
    objects: seq<map<string, string>>)

  const EmptySpc := SecretProviderClass("", map[], [])

  /** Everything the reconcilers can read from the cluster. `clientOk` says
      whether a client can be made; the rotation reconciler makes one per
      binding, and every one of them reads this same flag. */
  datatype Cluster = Cluster(
    clientOk: bool,
    pods: map<ObjectKey, Fetch<Pod>>,
    secrets: map<ObjectKey, Fetch<Secret>>,
    spcs: map<ObjectKey, Fetch<SecretProviderClass>>)

  function Get<T>(store: map<ObjectKey, Fetch<T>>, key: ObjectKey): (r: Result<T, ApiError>)
    ensures r.Ok? <==> key in store && store[key].Found?
    ensures r.Ok? ==> r.value == store[key].value
    ensures r == Err(ClientError) <==> key in store && store[key].ClientUnavailable?
  {
    if key !in store then Err(NotFound(key))
    else match store[key]
      case Found(v) => Ok(v)
      case ClientUnavailable => Err(ClientError)
      case Failed(reason) => Err(RequestFailed(key, reason))
  }

  /** The errors returned by the code under model; `Context` is an
      `fmt.Errorf` wrapping with a message prefix. */
  datatype Error =
    | Access(accessError: AccessError)
    | FieldMissing(section: string, key: string)
    | FieldNotSet(key: string)
    | SpcNotFound(name: string)
    | Api(apiError: ApiError)
    | Parse(input: string)
    | Internal(message: string)
    | NoPodsTracked(spcName: string)
    | Context(where: string, inner: Error)

  /** Whether `v` is a CSI volume, and of driver `driver` when one is given. */
  predicate CsiMatches(v: Volume, driver: Option<string>) {
    v.csi.Some? && (driver.None? || v.csi.value.driver == driver.value)
  }

  /** The index of the last volume that `CsiMatches`, `None` if there is none. */
  function LastCsiVolume(vols: seq<Volume>, driver: Option<string>): (r: Option<nat>)
    ensures r.Some? ==> r.value < |vols| && CsiMatches(vols[r.value], driver)
                        && forall j :: r.value < j < |vols| ==> !CsiMatches(vols[j], driver)
    ensures r.None? <==> forall j :: 0 <= j < |vols| ==> !CsiMatches(vols[j], driver)
  {
    if vols == [] then None
    else if CsiMatches(vols[|vols| - 1], driver) then Some(|vols| - 1)
    else LastCsiVolume(vols[..|vols| - 1], driver)
  }

  /** Reading the volumes one more at a time: the last match of a longer
      prefix is the new volume when it matches, else the old last match. */
  lemma LastCsiVolumeExtend(vols: seq<Volume>, driver: Option<string>, i: nat)
    requires i < |vols|
    ensures LastCsiVolume(vols[..i + 1], driver)
            == if CsiMatches(vols[i], driver) then Some(i) else LastCsiVolume(vols[..i], driver)
  {
    assert vols[..i + 1][..i] == vols[..i];
  }

  /** The last match of a concatenation: the last match of the second part,
      shifted past the first part, or else the last match of the first. */
  lemma {:induction false} LastCsiVolumeConcat(a: seq<Volume>, b: seq<Volume>, driver: Option<string>)
    ensures LastCsiVolume(a + b, driver)
            == match LastCsiVolume(b, driver)
               case Some(j) => Some(|a| + j)
               case None => LastCsiVolume(a, driver)
    decreases |b|
  {
    if b != [] {
      var init := b[..|b| - 1];
      LastCsiVolumeConcat(a, init, driver);
      assert (a + b)[..|a + b| - 1] == a + init;
      assert (a + b)[|a + b| - 1] == b[|b| - 1];
    } else {
      assert a + b == a;
    }
  }

  /** A volume that does not match, inserted between `front` and `back`:
      the last match is the same volume, shifted by one when it lies in
      `back`. */
  lemma LastCsiVolumeInsert(front: seq<Volume>, v: Volume, back: seq<Volume>, driver: Option<string>)
    requires !CsiMatches(v, driver)
    ensures LastCsiVolume(front + [v] + back, driver)
            == match LastCsiVolume(front + back, driver)
               case None => None
               case Some(j) => Some(if j < |front| then j else j + 1)
  {
    assert LastCsiVolume([v], driver).None?;
    LastCsiVolumeConcat(front, [v], driver);
    LastCsiVolumeConcat(front, back, driver);
    LastCsiVolumeConcat(front + [v], back, driver);
  }

  /** Every CSI volume in `vols` has a secret ref, so reading the ref of any
      of them does not dereference nil. */
  predicate CsiRefsPresent(vols: seq<Volume>, driver: Option<string>) {
    forall k :: 0 <= k < |vols| ==> CsiMatches(vols[k], driver) ==> vols[k].csi.value.nodePublishSecretRef.Some?
  }

  /** Inserting a volume that does not match keeps `CsiRefsPresent`. */
  lemma CsiRefsPresentInsert(front: seq<Volume>, v: Volume, back: seq<Volume>, driver: Option<string>)
    requires !CsiMatches(v, driver) && CsiRefsPresent(front + back, driver)
    ensures CsiRefsPresent(front + [v] + back, driver)
  {
    var ins := front + [v] + back;
    forall m | 0 <= m < |ins| && CsiMatches(ins[m], driver)
      ensures ins[m].csi.value.nodePublishSecretRef.Some?
    {
      if m < |front| {
        assert ins[m] == (front + back)[m];
      } else {
        assert ins[m] == (front + back)[m - 1];
      }
    }
  }

  /** A `status.byPod` entry of a secret provider class: a map with string
      `name` and `namespace` (anything else makes the type assertions of the
      pod loops panic). */
  predicate PodEntry(v: Value) {
    v.Obj? && "name" in v.fields && v.fields["name"].Str?
    && "namespace" in v.fields && v.fields["namespace"].Str?
  }

  function EntryKey(v: Value): ObjectKey
    requires PodEntry(v)
  {
    ObjectKey(v.fields["namespace"].s, v.fields["name"].s)
  }

  /** The pod `Get` returns for `key`, if any, satisfies `CsiRefsPresent`:
      the one pod a pod loop dereferences for that key. */
  predicate FetchedPodHasCsiRefs(c: Cluster, key: ObjectKey, driver: Option<string>) {
    Get(c.pods, key).Ok? ==> CsiRefsPresent(Get(c.pods, key).value.volumes, driver)
  }

  /** What listing the secret provider classes returned: the items, and an
      error the driver loops only log. */
  datatype Listing = Listing(items: seq<Object>, error: Option<ApiError>)
}
