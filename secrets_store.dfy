/** pkg/secrets-store/utils.go: path helpers, validated field lookups on
    unstructured objects, the secret provider class search, the binding
    (SecretProviderClassPodStatus) object, the secret lookup and the
    initial `status.objects` of a secret provider class. */
module SecretsStore {
  import opened Wrappers
  import opened Unstructured
  import opened Cluster

  // ---------------------------------------------------------------------
  // Windows paths and the provider binary path.

  /** `strings.Replace(path, "/", "\\", -1)`. */
  function ReplaceSlashes(s: string): (r: string)
    ensures |r| == |s|
    ensures forall i :: 0 <= i < |s| ==> r[i] == (if s[i] == '/' then '\\' else s[i])
  {
    if s == [] then [] else [if s[0] == '/' then '\\' else s[0]] + ReplaceSlashes(s[1..])
  }

  predicate StartsWithSlash(path: string) {
    |path| > 0 && (path[0] == '/' || path[0] == '\\')
  }

  /** Forward slashes become backslashes; a path rooted at a slash is then
      put on drive `c:`. */
  function NormalizeWindowsPath(path: string): (r: string)
    ensures '/' !in r
    ensures StartsWithSlash(path) ==> |r| == |path| + 2 && r[..2] == "c:"
    ensures !StartsWithSlash(path) ==> |r| == |path|
    ensures |r| >= |path| && r[|r| - |path|..] == ReplaceSlashes(path)
  {
    var n := ReplaceSlashes(path);
    if |n| > 0 && n[0] == '\\' then "c:" + n else n
  }

  lemma ReplaceSlashesNoSlash(s: string)
    requires '/' !in s
    ensures ReplaceSlashes(s) == s
  {
  }

  /** Normalising twice is normalising once. */
  lemma NormalizeWindowsPathIdempotent(path: string)
    ensures NormalizeWindowsPath(NormalizeWindowsPath(path)) == NormalizeWindowsPath(path)
  {
    var r := NormalizeWindowsPath(path);
    ReplaceSlashesNoSlash(r);
    if StartsWithSlash(path) {
      assert r[0] == r[..2][0] == 'c';
    } else {
      assert ReplaceSlashes(path) == r;
    }
  }

  /** `getProviderPath`: on Windows the `.exe` under the normalised volume
      path, elsewhere `<volume>/<name>/provider-<name>`. */
  function GetProviderPath(goos: string, providerVolumePath: string, providerName: string): (r: string)
    ensures goos != "windows" ==> r == providerVolumePath + "/" + providerName + "/provider-" + providerName
    ensures goos == "windows" ==> '/' !in r && |r| >= 4 && r[|r| - 4..] == ".exe"
  {
    if goos == "windows" then
      var raw := providerVolumePath + "\\" + providerName + "\\provider-" + providerName + ".exe";
      var r := NormalizeWindowsPath(raw);
      assert r[|r| - 4..] == ReplaceSlashes(raw)[|raw| - 4..] by {
        assert r[|r| - |raw|..] == ReplaceSlashes(raw);
      }
      assert raw[|raw| - 4..] == ".exe";
      r
    else
      providerVolumePath + "/" + providerName + "/provider-" + providerName
  }

  // ---------------------------------------------------------------------
  // Mounted files.

  /** The separator `getMountedFiles` joins with. */
  function MountedFileSeparator(targetPath: string): (sep: string)
    ensures sep == "\\" <==> |targetPath| >= 3 && targetPath[..3] == "c:\\"
    ensures sep == "/" <==> !(|targetPath| >= 3 && targetPath[..3] == "c:\\")
  {
    if |targetPath| >= 3 && targetPath[..3] == "c:\\" then "\\" else "/"
  }

  /** `getMountedFiles`: `listing` is what reading the directory returned
      (the entry names, or the read error). */
  method GetMountedFiles(targetPath: string, listing: Result<seq<string>, string>) returns (r: Result<seq<string>, Error>)
    ensures listing.Err? ==> r == Err(Internal(listing.error))
    ensures listing.Ok? ==> r.Ok? && |r.value| == |listing.value|
    ensures listing.Ok? ==> forall i :: 0 <= i < |listing.value| ==>
              r.value[i] == targetPath + MountedFileSeparator(targetPath) + listing.value[i]
  {
    if listing.Err? {
      return Err(Internal(listing.error));
    }
    var files := listing.value;
    var sep := "/";
    if |targetPath| >= 3 && targetPath[..3] == "c:\\" {
      sep := "\\";
    }
    var paths: seq<string> := [];
    var i := 0;
    while i < |files|
      invariant 0 <= i <= |files|
      invariant |paths| == i
      invariant forall k :: 0 <= k < i ==> paths[k] == targetPath + sep + files[k]
    {
      paths := paths + [targetPath + sep + files[i]];
      i := i + 1;
    }
    return Ok(paths);
  }

  // ---------------------------------------------------------------------
  // Pod UID from a target path: the first submatch of
  // `[\\|\/]+pods[\\|\/]+(.+?)[\\|\/]+volumes`, searched as Go's regexp
  // package does (leftmost start, then the choice a backtracking matcher
  // makes: greedy separator runs, lazy group, `.` not matching a newline).

  /** The character class `[\\|\/]`: backslash, bar and slash. */
  predicate IsSep(c: char) {
    c == '\\' || c == '|' || c == '/'
  }

  predicate AllSep(s: string, i: nat, j: nat)
    requires i <= j <= |s|
  {
    forall k :: i <= k < j ==> IsSep(s[k])
  }

  predicate NoNewline(s: string, i: nat, j: nat)
    requires i <= j <= |s|
  {
    forall k :: i <= k < j ==> s[k] != '\n'
  }

  predicate WordAt(s: string, i: nat, w: string) {
    i + |w| <= |s| && s[i..i + |w|] == w
  }

  /** The end of the run of separators starting at `i`. */
  function SepRunEnd(s: string, i: nat): (e: nat)
    requires i <= |s|
    ensures i <= e <= |s|
    ensures AllSep(s, i, e)
    ensures e < |s| ==> !IsSep(s[e])
    decreases |s| - i
  {
    if i < |s| && IsSep(s[i]) then SepRunEnd(s, i + 1) else i
  }

  /** A run of separators from `i` that ends exactly at `j`. */
  lemma {:induction false} SepRunEndAt(s: string, i: nat, j: nat)
    requires i <= j <= |s| && AllSep(s, i, j) && (j < |s| ==> !IsSep(s[j]))
    ensures SepRunEnd(s, i) == j
    decreases j - i
  {
    if i < j {
      SepRunEndAt(s, i + 1, j);
    }
  }

  /** A run of separators from `i` reaches at least `j`. */
  lemma {:induction false} SepRunEndCovers(s: string, i: nat, j: nat)
    requires i <= j <= |s| && AllSep(s, i, j)
    ensures SepRunEnd(s, i) >= j
    decreases j - i
  {
    if i < j {
      SepRunEndCovers(s, i + 1, j);
    }
  }

  /** `[\\|\/]+volumes` matches from `e`. */
  predicate TailAt(s: string, e: nat) {
    e < |s| && IsSep(s[e]) && WordAt(s, SepRunEnd(s, e), "volumes")
  }

  /** The lazy group `(.+?)` started before `k`: it has consumed `s[..k]`
      and now takes one more character, stopping at the first end after
      which the tail matches. */
  function LazyGroupEnd(s: string, k: nat): (r: Option<nat>)
    requires k <= |s|
    ensures r.Some? ==> k < r.value <= |s| && TailAt(s, r.value) && NoNewline(s, k, r.value)
    ensures r.Some? ==> forall j :: k < j < r.value ==> !TailAt(s, j)
    decreases |s| - k
  {
    if k == |s| || s[k] == '\n' then None
    else if TailAt(s, k + 1) then Some(k + 1)
    else LazyGroupEnd(s, k + 1)
  }

  /** The second separator run `[\\|\/]+` backing off: group starts
      `g, g - 1, ..., lo + 1` are tried in that order. */
  function GroupFrom(s: string, lo: nat, g: nat): (r: Option<(nat, nat)>)
    requires lo <= g <= |s|
    ensures r.Some? ==> lo < r.value.0 <= g && r.value.0 < r.value.1 <= |s|
                        && TailAt(s, r.value.1) && NoNewline(s, r.value.0, r.value.1)
    decreases g
  {
    if g <= lo then None
    else match LazyGroupEnd(s, g)
      case Some(e) => Some((g, e))
      case None => GroupFrom(s, lo, g - 1)
  }

  /** The pattern matched from start `i`, as the group's bounds. */
  function MatchAt(s: string, i: nat): (r: Option<(nat, nat)>)
    requires i <= |s|
    ensures r.Some? ==> i < |s| && IsSep(s[i]) && r.value.0 < r.value.1 <= |s|
                        && PatternAt(s, i, SepRunEnd(s, i), r.value.0, r.value.1, SepRunEnd(s, r.value.1))
  {
    if i == |s| || !IsSep(s[i]) then None
    else
      var j := SepRunEnd(s, i);
      if !WordAt(s, j, "pods") then None
      else
        var p := j + 4;
        var r := GroupFrom(s, p, SepRunEnd(s, p));
        if r.Some? then
          var g, e := r.value.0, r.value.1;
          assert AllSep(s, p, g) by {
            assert AllSep(s, p, SepRunEnd(s, p));
          }
          r
        else r
  }

  /** The leftmost start at or after `i` where the pattern matches. */
  function FindFrom(s: string, i: nat): (r: Option<(nat, nat)>)
    requires i <= |s|
    ensures r.Some? ==> r.value.0 < r.value.1 <= |s|
    decreases |s| - i
  {
    if i == |s| then None
    else match MatchAt(s, i)
      case Some(m) => Some(m)
      case None => FindFrom(s, i + 1)
  }

  /** `getPodUIDFromTargetPath`: the submatch, or "" when there is none. */
  function GetPodUIDFromTargetPath(targetPath: string): string {
    match FindFrom(targetPath, 0)
    case None => ""
    case Some(m) => targetPath[m.0..m.1]
  }

  /** The pattern, read declaratively: separators on `[i, j)`, `pods` at
      `j`, separators on `[j + 4, g)`, the group `[g, e)` free of newlines,
      separators on `[e, t)` and `volumes` at `t`. */
  ghost predicate PatternAt(s: string, i: nat, j: nat, g: nat, e: nat, t: nat) {
    && i < j && j + 4 < g && g < e && e < t && t <= |s|
    && AllSep(s, i, j) && WordAt(s, j, "pods")
    && AllSep(s, j + 4, g) && NoNewline(s, g, e)
    && AllSep(s, e, t) && WordAt(s, t, "volumes")
  }

  lemma {:induction false} LazyGroupComplete(s: string, k: nat, e: nat)
    requires k < e <= |s| && TailAt(s, e) && NoNewline(s, k, e)
    ensures LazyGroupEnd(s, k).Some?
    decreases e - k
  {
    if !TailAt(s, k + 1) {
      LazyGroupComplete(s, k + 1, e);
    }
  }

  lemma {:induction false} GroupFromComplete(s: string, lo: nat, g0: nat, g: nat)
    requires lo < g <= g0 <= |s| && LazyGroupEnd(s, g).Some?
    ensures GroupFrom(s, lo, g0).Some?
    decreases g0
  {
    if g0 > g && LazyGroupEnd(s, g0).None? {
      GroupFromComplete(s, lo, g0 - 1, g);
    }
  }

  /** What the search finds is the match at some start at or after `i`. */
  lemma {:induction false} FindFromSound(s: string, i: nat)
    requires i <= |s| && FindFrom(s, i).Some?
    ensures exists a :: i <= a < |s| && MatchAt(s, a) == FindFrom(s, i)
    decreases |s| - i
  {
    if MatchAt(s, i).None? {
      FindFromSound(s, i + 1);
    }
  }

  lemma {:induction false} FindFromComplete(s: string, i: nat, a: nat)
    requires i <= a < |s| && MatchAt(s, a).Some?
    ensures FindFrom(s, i).Some?
    decreases a - i
  {
    if MatchAt(s, i).None? {
      FindFromComplete(s, i + 1, a);
    }
  }

  /** Wherever the pattern occurs, the search finds some occurrence. */
  lemma MatchAtComplete(s: string, i: nat, j: nat, g: nat, e: nat, t: nat)
    requires PatternAt(s, i, j, g, e, t)
    ensures MatchAt(s, i).Some?
  {
    assert "pods"[0] == 'p' && s[j..j + 4][0] == s[j];
    SepRunEndAt(s, i, j);
    assert "volumes"[0] == 'v' && s[t..t + 7][0] == s[t];
    SepRunEndAt(s, e, t);
    assert TailAt(s, e);
    LazyGroupComplete(s, g, e);
    var q := SepRunEnd(s, j + 4);
    SepRunEndCovers(s, j + 4, g);
    GroupFromComplete(s, j + 4, q, g);
  }

  /** The pod UID is non-empty exactly when the pattern occurs in the path,
      and then it is the group of an occurrence. */
  lemma PodUIDMatchesPattern(targetPath: string)
    ensures GetPodUIDFromTargetPath(targetPath) != "" <==>
              exists i: nat, j: nat, g: nat, e: nat, t: nat :: PatternAt(targetPath, i, j, g, e, t)
    ensures GetPodUIDFromTargetPath(targetPath) != "" ==>
              exists i: nat, j: nat, g: nat, e: nat, t: nat :: PatternAt(targetPath, i, j, g, e, t)
                                      && GetPodUIDFromTargetPath(targetPath) == targetPath[g..e]
  {
    if exists i: nat, j: nat, g: nat, e: nat, t: nat :: PatternAt(targetPath, i, j, g, e, t) {
      var i: nat, j: nat, g: nat, e: nat, t: nat :| PatternAt(targetPath, i, j, g, e, t);
      MatchAtComplete(targetPath, i, j, g, e, t);
      FindFromComplete(targetPath, 0, i);
    }
    var r := FindFrom(targetPath, 0);
    if r.Some? {
      FindFromSound(targetPath, 0);
      var a :| 0 <= a < |targetPath| && MatchAt(targetPath, a) == r;
      assert PatternAt(targetPath, a, SepRunEnd(targetPath, a), r.value.0, r.value.1, SepRunEnd(targetPath, r.value.1));
      assert |targetPath[r.value.0..r.value.1]| > 0;
    }
  }

  lemma {:induction false} FindFromSkip(s: string, i: nat, j: nat)
    requires i <= j <= |s|
    requires forall k :: i <= k < j ==> MatchAt(s, k).None?
    ensures FindFrom(s, i) == FindFrom(s, j)
    decreases j - i
  {
    if i < j {
      FindFromSkip(s, i + 1, j);
    }
  }

  const KubeletPodsDir := "/var/lib/kubelet/pods"

  /** The characters one may find in a pod UID: no separator, no newline. */
  predicate PlainSegment(uid: string) {
    forall k :: 0 <= k < |uid| ==> !IsSep(uid[k]) && uid[k] != '\n'
  }

  lemma {:induction false} LazyGroupOverSegment(s: string, start: nat, n: nat, k: nat)
    requires start <= k < start + n && start + n + 8 <= |s|
    requires forall x :: start <= x < start + n ==> !IsSep(s[x]) && s[x] != '\n'
    requires IsSep(s[start + n]) && s[start + n + 1..start + n + 8] == "volumes"
    ensures LazyGroupEnd(s, k) == Some(start + n)
    decreases start + n - k
  {
    if k + 1 == start + n {
      assert "volumes"[0] == 'v' && s[start + n + 1..start + n + 8][0] == s[start + n + 1];
      SepRunEndAt(s, start + n, start + n + 1);
    } else {
      LazyGroupOverSegment(s, start, n, k + 1);
    }
  }

  /** Paths beginning with the kubelet pods directory: `/var/lib/kubelet/pods`,
      a separator, a plain segment of length `n`, a separator and `volumes`. */
  predicate KubeletLayout(s: string, n: nat) {
    && 30 + n <= |s| && s[..21] == KubeletPodsDir
    && IsSep(s[21]) && n > 0
    && (forall x :: 22 <= x < 22 + n ==> !IsSep(s[x]) && s[x] != '\n')
    && IsSep(s[22 + n]) && s[23 + n..30 + n] == "volumes"
  }

  /** No start inside `/var/lib/kubelet` begins a match. */
  lemma KubeletPrefixNoMatch(s: string, n: nat, k: nat)
    requires KubeletLayout(s, n) && k < 16
    ensures MatchAt(s, k).None?
  {
    assert forall x :: 0 <= x < 21 ==> s[x] == KubeletPodsDir[x];
    if IsSep(s[k]) {
      assert k == 0 || k == 4 || k == 8;
      SepRunEndAt(s, k, k + 1);
      assert s[k + 1..k + 5][0] == s[k + 1];
    }
  }

  /** The match starts at the separator before `pods`. */
  lemma KubeletMatch(s: string, n: nat)
    requires KubeletLayout(s, n)
    ensures MatchAt(s, 16) == Some((22, 22 + n))
  {
    assert forall x :: 0 <= x < 21 ==> s[x] == KubeletPodsDir[x];
    SepRunEndAt(s, 16, 17);
    assert s[17..21] == s[..21][17..21];
    assert WordAt(s, 17, "pods");
    SepRunEndAt(s, 21, 22);
    LazyGroupOverSegment(s, 22, n, 22);
  }

  /** A kubelet target path yields back the pod UID it was built from, with
      any of the three separators around the UID. */
  lemma PodUIDRoundTrip(uid: string, a: char, b: char, rest: string)
    requires uid != [] && PlainSegment(uid) && IsSep(a) && IsSep(b)
    ensures GetPodUIDFromTargetPath(KubeletPodsDir + [a] + uid + [b] + "volumes" + rest) == uid
  {
    var s := KubeletPodsDir + [a] + uid + [b] + "volumes" + rest;
    var n := |uid|;
    assert s[..21] == KubeletPodsDir;
    assert forall x :: 22 <= x < 22 + n ==> s[x] == uid[x - 22];
    assert s[23 + n..30 + n] == "volumes";
    assert KubeletLayout(s, n);
    forall k | 0 <= k < 16 ensures MatchAt(s, k).None? {
      KubeletPrefixNoMatch(s, n, k);
    }
    FindFromSkip(s, 0, 16);
    KubeletMatch(s, n);
    assert s[22..22 + n] == uid;
  }

  // ---------------------------------------------------------------------
  // Validated field lookups.

  /** `section.key` is absent (or the section is nil). */
  predicate FieldAbsent(obj: Object, section: string, key: string) {
    section !in obj || obj[section].Null? || (obj[section].Obj? && key !in obj[section].fields)
  }

  /** `section.key` holds `v`. */
  predicate FieldHolds(obj: Object, section: string, key: string, v: Value) {
    section in obj && obj[section].Obj? && key in obj[section].fields && obj[section].fields[key] == v
  }

  /** `section.key` holds a non-empty string. */
  predicate StringFieldSet(obj: Object, section: string, key: string) {
    section in obj && obj[section].Obj? && key in obj[section].fields
    && obj[section].fields[key].Str? && obj[section].fields[key].s != ""
  }

  function StringFromObject(obj: Object, section: string, key: string): Result<string, Error> {
    match NestedString(obj, section, key)
    case Err(e) => Err(Access(e))
    case Ok(None) => Err(FieldMissing(section, key))
    case Ok(Some(v)) => if |v| == 0 then Err(FieldNotSet(key)) else Ok(v)
  }

  function GetStringFromObjectSpec(obj: Object, key: string): (r: Result<string, Error>)
    ensures r.Ok? <==> StringFieldSet(obj, "spec", key)
    ensures r.Ok? ==> r.value == obj["spec"].fields[key].s && r.value != ""
    ensures FieldAbsent(obj, "spec", key) ==> r == Err(FieldMissing("spec", key))
    ensures FieldHolds(obj, "spec", key, Str("")) ==> r == Err(FieldNotSet(key))
  {
    StringFromObject(obj, "spec", key)
  }

  function GetStringFromObjectStatus(obj: Object, key: string): (r: Result<string, Error>)
    ensures r.Ok? <==> StringFieldSet(obj, "status", key)
    ensures r.Ok? ==> r.value == obj["status"].fields[key].s && r.value != ""
    ensures FieldAbsent(obj, "status", key) ==> r == Err(FieldMissing("status", key))
    ensures FieldHolds(obj, "status", key, Str("")) ==> r == Err(FieldNotSet(key))
  {
    StringFromObject(obj, "status", key)
  }

  /** `spec.key` holds a non-empty object whose values are all strings. */
  predicate StringMapFieldSet(obj: Object, key: string) {
    "spec" in obj && obj["spec"].Obj? && key in obj["spec"].fields
    && obj["spec"].fields[key].Obj? && |obj["spec"].fields[key].fields| > 0
    && forall k | k in obj["spec"].fields[key].fields :: obj["spec"].fields[key].fields[k].Str?
  }

  function GetMapFromObjectSpec(obj: Object, key: string): (r: Result<map<string, string>, Error>)
    ensures r.Ok? <==> StringMapFieldSet(obj, key)
    ensures r.Ok? ==> r.value.Keys == obj["spec"].fields[key].fields.Keys && |r.value| > 0
    ensures r.Ok? ==> forall k | k in r.value :: r.value[k] == obj["spec"].fields[key].fields[k].s
    ensures FieldAbsent(obj, "spec", key) ==> r == Err(FieldMissing("spec", key))
    ensures FieldHolds(obj, "spec", key, Obj(map[])) ==> r == Err(FieldNotSet(key))
  {
    match NestedStringMap(obj, "spec", key)
    case Err(e) => Err(Access(e))
    case Ok(None) => Err(FieldMissing("spec", key))
    case Ok(Some(m)) =>
      assert m.Keys == obj["spec"].fields[key].fields.Keys;
      if |m| == 0 then Err(FieldNotSet(key)) else Ok(m)
  }

  // ---------------------------------------------------------------------
  // Secret provider class search.

  /** `GetSecretProviderItem`: `listing` is the namespace's list of secret
      provider classes (or the listing error); the first item named `name`. */
  method GetSecretProviderItem(listing: Result<seq<Object>, ApiError>, name: string) returns (r: Result<Object, Error>)
    ensures listing.Err? ==> r == Err(Api(listing.error))
    ensures listing.Ok? ==> (r.Ok? <==> exists k :: 0 <= k < |listing.value| && GetName(listing.value[k]) == name)
    ensures listing.Ok? && r.Err? ==> r == Err(SpcNotFound(name))
    ensures r.Ok? ==> exists k :: 0 <= k < |listing.value| && listing.value[k] == r.value
                                   && GetName(listing.value[k]) == name
                                   && forall j :: 0 <= j < k ==> GetName(listing.value[j]) != name
  {
    if listing.Err? {
      return Err(Api(listing.error));
    }
    var items := listing.value;
    var i := 0;
    while i < |items|
      invariant 0 <= i <= |items|
      invariant forall j :: 0 <= j < i ==> GetName(items[j]) != name
    {
      if GetName(items[i]) == name {
        return Ok(items[i]);
      }
      i := i + 1;
    }
    return Err(SpcNotFound(name));
  }

  // ---------------------------------------------------------------------
  // The binding object.

  const PodStatusApiVersion := "secrets-store.csi.x-k8s.io/v1alpha1"
  const NodeNameLabel := "internal.secrets-store.csi.k8s.io/node-name"

  /** The four status fields of a binding. */
  function BindingStatus(podName: string, targetPath: string, mounted: bool, spcName: string): Object {
    map["podName" := Str(podName), "targetPath" := Str(targetPath),
        "mounted" := Bool(mounted), "secretProviderClassName" := Str(spcName)]
  }

  /** The SecretProviderClassPodStatus object `createSecretProviderClassPodStatus`
      builds before creating it; `SetNamespace("")` removes the field. */
  function PodStatusObject(podName: string, namespace: string, podUID: string, spcName: string,
                           targetPath: string, nodeID: string, mounted: bool): (obj: Object)
    ensures GetName(obj) == podName + "-" + namespace + "-" + spcName
    ensures GetNamespace(obj) == namespace
    ensures "status" in obj && obj["status"].Obj?
    ensures obj["status"].fields.Keys == {"podName", "targetPath", "mounted", "secretProviderClassName"}
    ensures obj["status"].fields["podName"] == Str(podName)
    ensures obj["status"].fields["targetPath"] == Str(targetPath)
    ensures obj["status"].fields["mounted"] == Bool(mounted)
    ensures obj["status"].fields["secretProviderClassName"] == Str(spcName)
    ensures "spec" !in obj
  {
    var owner := Obj(map["apiVersion" := Str("v1"), "kind" := Str("Pod"),
                         "name" := Str(podName), "uid" := Str(podUID)]);
    var meta := map["name" := Str(podName + "-" + namespace + "-" + spcName),
                    "ownerReferences" := List([owner]),
                    "labels" := Obj(map[NodeNameLabel := Str(nodeID)])];
    var meta' := if namespace == "" then meta else meta["namespace" := Str(namespace)];
    map["apiVersion" := Str(PodStatusApiVersion),
        "kind" := Str("SecretProviderClassPodStatus"),
        "metadata" := Obj(meta'),
        "status" := Obj(BindingStatus(podName, targetPath, mounted, spcName))]
  }

  /** What `Create` answered. */
  datatype CreateResult = Created | AlreadyExists | CreateFailed(reason: ApiError)

  /** `createSecretProviderClassPodStatus`: an existing binding is success. */
  function CreateSecretProviderClassPodStatus(create: CreateResult): (r: Option<Error>)
    ensures r.None? <==> create.Created? || create.AlreadyExists?
    ensures create.CreateFailed? ==> r == Some(Api(create.reason))
  {
    match create
    case CreateFailed(reason) => Some(Api(reason))
    case _ => None
  }

  /** A binding's pod name, target path and class name read back through the
      status accessor; none of them is reachable through the spec accessor. */
  lemma BindingFieldsReadBack(podName: string, namespace: string, podUID: string, spcName: string,
                              targetPath: string, nodeID: string, mounted: bool)
    requires podName != "" && targetPath != "" && spcName != ""
    ensures var obj := PodStatusObject(podName, namespace, podUID, spcName, targetPath, nodeID, mounted);
            && GetStringFromObjectStatus(obj, "podName") == Ok(podName)
            && GetStringFromObjectStatus(obj, "targetPath") == Ok(targetPath)
            && GetStringFromObjectStatus(obj, "secretProviderClassName") == Ok(spcName)
            && GetStringFromObjectSpec(obj, "podName") == Err(FieldMissing("spec", "podName"))
            && GetStringFromObjectSpec(obj, "targetPath") == Err(FieldMissing("spec", "targetPath"))
  {
  }

  // ---------------------------------------------------------------------
  // Secrets.

  /** `GetK8sSecret` as written: the error of `Get` is dropped, so a missing
      or unreadable secret comes back as an empty secret and no error. */
  function GetK8sSecretAsWritten(c: Cluster, name: string, namespace: string): (r: Result<Secret, Error>)
    ensures r.Err? <==> Get(c.secrets, ObjectKey(namespace, name)) == Err(ClientError)
    ensures Get(c.secrets, ObjectKey(namespace, name)).Ok? ==> r == Ok(Get(c.secrets, ObjectKey(namespace, name)).value)
    ensures r.Ok? && Get(c.secrets, ObjectKey(namespace, name)).Err? ==> r.value == Secret(name, namespace, map[])
  {
    match Get(c.secrets, ObjectKey(namespace, name))
    case Ok(s) => Ok(s)
    case Err(ClientError) => Err(Api(ClientError))
    case Err(_) => Ok(Secret(name, namespace, map[]))
  }

  /** `GetK8sSecret` with the lookup error returned, as the callers' error
      checks intend. */
  function GetK8sSecret(c: Cluster, name: string, namespace: string): (r: Result<Secret, Error>)
    ensures r.Ok? <==> ObjectKey(namespace, name) in c.secrets && c.secrets[ObjectKey(namespace, name)].Found?
    ensures r.Ok? ==> r.value == c.secrets[ObjectKey(namespace, name)].value
    ensures r.Err? ==> r.error == Api(Get(c.secrets, ObjectKey(namespace, name)).error)
  {
    match Get(c.secrets, ObjectKey(namespace, name))
    case Ok(s) => Ok(s)
    case Err(e) => Err(Api(e))
  }

  /** A secret that is not in the cluster: as written the caller sees an
      empty secret and no error; corrected, the caller sees the error. */
  lemma GetK8sSecretDropsLookupError(c: Cluster, name: string, namespace: string)
    requires ObjectKey(namespace, name) !in c.secrets
    ensures GetK8sSecretAsWritten(c, name, namespace) == Ok(Secret(name, namespace, map[]))
    ensures GetK8sSecret(c, name, namespace) == Err(Api(NotFound(ObjectKey(namespace, name))))
  {
  }

  // ---------------------------------------------------------------------
  // Initial status objects of a secret provider class.

  /** An unstructured object updated in place through a pointer. */
  class UnstructuredItem {
    var obj: Object

    constructor (obj: Object)
      ensures this.obj == obj
    {
      this.obj := obj;
    }
  }

  /** The `objects` parameter, "" when absent. */
  function ObjectsParameter(parameters: map<string, string>): (s: string)
    ensures "objects" in parameters ==> s == parameters["objects"]
    ensures "objects" !in parameters ==> s == ""
  {
    if "objects" in parameters then parameters["objects"] else ""
  }

  /** A parsed object entry without its `objectType` and `objectAlias` keys. */
  function StripEntry(entry: Object): Value {
    Obj(entry - {"objectType", "objectAlias"})
  }

  /** The entries parsed one by one; the first one that fails to parse is
      the error. */
  function ParseEntries(entries: seq<string>, parseEntry: string -> Option<Object>): Result<seq<Value>, Error> {
    if entries == [] then Ok([])
    else match parseEntry(entries[0])
      case None => Err(Parse(entries[0]))
      case Some(o) =>
        match ParseEntries(entries[1..], parseEntry)
        case Err(e) => Err(e)
        case Ok(rest) => Ok([StripEntry(o)] + rest)
  }

  /** The object `initializeObjectsInStatus` leaves behind, or its error.
      `parseArray` and `parseEntry` stand for the two YAML decodings. */
  function InitializedObject(obj: Object, parameters: map<string, string>, runningObjects: seq<Value>,
                             parseArray: string -> Option<seq<string>>,
                             parseEntry: string -> Option<Object>): Result<Object, Error> {
    match parseArray(ObjectsParameter(parameters))
    case None => Err(Parse(ObjectsParameter(parameters)))
    case Some(entries) =>
      match ParseEntries(entries, parseEntry)
      case Err(e) => Err(e)
      case Ok(parsed) =>
        match SetNestedField(obj, List(runningObjects + parsed), "status", "objects")
        case Err(e) => Err(Access(e))
        case Ok(o) => Ok(o)
  }

  /** On success every entry was parsed and stripped, in order, one output
      per entry; on failure some entry did not parse. */
  lemma {:induction false} ParseEntriesShape(entries: seq<string>, parseEntry: string -> Option<Object>)
    ensures ParseEntries(entries, parseEntry).Ok? <==> forall k :: 0 <= k < |entries| ==> parseEntry(entries[k]).Some?
    ensures ParseEntries(entries, parseEntry).Ok? ==>
              |ParseEntries(entries, parseEntry).value| == |entries|
              && forall k :: 0 <= k < |entries| ==>
                   ParseEntries(entries, parseEntry).value[k] == StripEntry(parseEntry(entries[k]).value)
    ensures ParseEntries(entries, parseEntry).Err? ==>
              exists k :: 0 <= k < |entries| && parseEntry(entries[k]).None?
                          && ParseEntries(entries, parseEntry).error == Parse(entries[k])
  {
    if entries != [] {
      ParseEntriesShape(entries[1..], parseEntry);
      if parseEntry(entries[0]).Some? && ParseEntries(entries[1..], parseEntry).Ok? {
        var rest := ParseEntries(entries[1..], parseEntry).value;
        forall k | 0 <= k < |entries|
          ensures ParseEntries(entries, parseEntry).value[k] == StripEntry(parseEntry(entries[k]).value)
        {
          if k > 0 { assert entries[k] == entries[1..][k - 1]; }
        }
      }
      if ParseEntries(entries, parseEntry).Ok? {
        forall k | 0 <= k < |entries| ensures parseEntry(entries[k]).Some? {
          if k > 0 { assert entries[k] == entries[1..][k - 1]; }
        }
      }
      if ParseEntries(entries[1..], parseEntry).Err? && parseEntry(entries[0]).Some? {
        var k :| 0 <= k < |entries[1..]| && entries[1..][k] == entries[k + 1]
                 && parseEntry(entries[1..][k]).None? && ParseEntries(entries[1..], parseEntry).error == Parse(entries[1..][k]);
        assert parseEntry(entries[k + 1]).None?;
      }
    }
  }

  /** The new `status.objects` is the running objects followed by one
      stripped entry per configured object, in order; any other field of
      the status is kept. */
  lemma InitializedObjectsAppend(obj: Object, parameters: map<string, string>, runningObjects: seq<Value>,
                                 parseArray: string -> Option<seq<string>>, parseEntry: string -> Option<Object>)
    requires InitializedObject(obj, parameters, runningObjects, parseArray, parseEntry).Ok?
    ensures var o := InitializedObject(obj, parameters, runningObjects, parseArray, parseEntry).value;
            var entries := parseArray(ObjectsParameter(parameters)).value;
            && "status" in o && o["status"].Obj? && "objects" in o["status"].fields
            && o["status"].fields["objects"].List?
            && var out := o["status"].fields["objects"].items;
            && |out| == |runningObjects| + |entries|
            && out[..|runningObjects|] == runningObjects
            && (forall k :: 0 <= k < |entries| ==>
                  parseEntry(entries[k]).Some? && out[|runningObjects| + k] == StripEntry(parseEntry(entries[k]).value))
            && (forall key :: key in obj ==> key != "status" ==> key in o && o[key] == obj[key])
  {
    var entries := parseArray(ObjectsParameter(parameters)).value;
    ParseEntriesShape(entries, parseEntry);
    var parsed := ParseEntries(entries, parseEntry).value;
    var out := runningObjects + parsed;
    forall k | 0 <= k < |entries| ensures out[|runningObjects| + k] == StripEntry(parseEntry(entries[k]).value) {
    }
  }

  /** A configured entry that does not parse leaves no status behind. */
  lemma InitializeFailsOnBadEntry(obj: Object, parameters: map<string, string>, runningObjects: seq<Value>,
                                  parseArray: string -> Option<seq<string>>, parseEntry: string -> Option<Object>, k: nat)
    requires parseArray(ObjectsParameter(parameters)).Some?
    requires k < |parseArray(ObjectsParameter(parameters)).value|
    requires parseEntry(parseArray(ObjectsParameter(parameters)).value[k]).None?
    ensures InitializedObject(obj, parameters, runningObjects, parseArray, parseEntry).Err?
  {
    ParseEntriesShape(parseArray(ObjectsParameter(parameters)).value, parseEntry);
  }

  /** A value as YAML decodes it that `runtime.DeepCopyJSONValue` can copy:
      YAML integers decode to Go's `int` and nested maps to
      `map[interface{}]interface{}`, and copying either panics. */
  predicate YamlCopyable(v: Value) {
    match v
    case Int(_) => false
    case Obj(_) => false
    case List(items) => forall k :: 0 <= k < |items| ==> YamlCopyable(items[k])
    case _ => true
  }

  /** The configured objects, when they all parse, can be deep-copied when
      `status.objects` is set: each stripped entry is a map whose values
      are `YamlCopyable`. */
  predicate ParsedEntriesCopyable(parameters: map<string, string>, parseArray: string -> Option<seq<string>>,
                                  parseEntry: string -> Option<Object>) {
    match parseArray(ObjectsParameter(parameters))
    case None => true
    case Some(entries) =>
      match ParseEntries(entries, parseEntry)
      case Err(_) => true
      case Ok(parsed) => forall k, key :: 0 <= k < |parsed| && parsed[k].Obj? && key in parsed[k].fields ==>
                           YamlCopyable(parsed[k].fields[key])
  }

  /** `initializeObjectsInStatus`: parses the configured objects, strips
      each, appends them to `runningObjects` and sets `status.objects` on
      `item`; on any error `item` is left as it was. Setting the field
      deep-copies the entries, and after it `Update` is called on the
      client `GetClient` returns (`clientOk` when it can be made), which is
      nil otherwise; both would panic, so both are demanded. The result of
      `Update` is discarded by the source and is not modelled. */
  method InitializeObjectsInStatus(item: UnstructuredItem, parameters: map<string, string>, runningObjects: seq<Value>,
                                   parseArray: string -> Option<seq<string>>,
                                   parseEntry: string -> Option<Object>, clientOk: bool) returns (err: Option<Error>)
    requires ParsedEntriesCopyable(parameters, parseArray, parseEntry)
    requires InitializedObject(item.obj, parameters, runningObjects, parseArray, parseEntry).Ok? ==> clientOk
    modifies item
    ensures var r := InitializedObject(old(item.obj), parameters, runningObjects, parseArray, parseEntry);
            && (r.Ok? ==> err.None? && item.obj == r.value)
            && (r.Err? ==> err == Some(r.error) && item.obj == old(item.obj))
  {
    var objectStr := "";
    if "objects" in parameters {
      objectStr := parameters["objects"];
    }
    var decoded := parseArray(objectStr);
    if decoded.None? {
      return Some(Parse(objectStr));
    }
    var entries := decoded.value;
    var running := runningObjects;
    var i := 0;
    while i < |entries|
      invariant 0 <= i <= |entries|
      invariant ParseEntries(entries, parseEntry).Ok? ==>
                  ParseEntries(entries[i..], parseEntry).Ok?
                  && runningObjects + ParseEntries(entries, parseEntry).value
                     == running + ParseEntries(entries[i..], parseEntry).value
      invariant ParseEntries(entries, parseEntry).Err? ==>
                  ParseEntries(entries[i..], parseEntry) == ParseEntries(entries, parseEntry)
    {
      var parsed := parseEntry(entries[i]);
      assert entries[i..][0] == entries[i] && entries[i..][1..] == entries[i + 1..];
      if parsed.None? {
        return Some(Parse(entries[i]));
      }
      running := running + [StripEntry(parsed.value)];
      i := i + 1;
    }
    assert entries[i..] == [];
    assert ParseEntries(entries, parseEntry).Ok? ==> running == runningObjects + ParseEntries(entries, parseEntry).value;
    match SetNestedField(item.obj, List(running), "status", "objects")
    case Err(e) =>
      return Some(Access(e));
    case Ok(o) =>
      item.obj := o;
      return None;
  }
}
