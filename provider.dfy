/** What the three reconciler drafts share about the provider process: the
    `Parameters` and `Secrets` structs and how JSON fills them, the JSON text
    passed on the command line, the binary path and the argument list, and
    the re-keying of a secret's byte values into strings. */
module Provider {
  import opened Wrappers
  import opened Cluster
  import opened SecretsStore

  /** The `Parameters` struct; JSON keys `keyvaultName`, `tenantId`,
      `objects`, `usePodIdentity`, `useVMManagedIdentity`,
      `userAssignedIdentityId`. */
  datatype Parameters = Parameters(
    keyvaultName: string,
    tenantId: string,
    objects: string,
    usePodIdentity: string,
    useVMManagedIdentity: string,
    userAssignedIdentityId: string)

  const ZeroParameters := Parameters("", "", "", "", "", "")

  /** The `Secrets` struct; JSON keys `clientid`, `clientsecret`. */
  datatype Secrets = Secrets(clientId: string, clientSecret: string)

  const ZeroSecrets := Secrets("", "")

  /** `json.Unmarshal` of a string map into an existing struct field: a key
      that is present overwrites the field, an absent key leaves it as it was. */
  function Pick(m: map<string, string>, key: string, current: string): (r: string)
    ensures key in m ==> r == m[key]
    ensures key !in m ==> r == current
  {
    if key in m then m[key] else current
  }

  function DecodeParameters(m: map<string, string>, into: Parameters): Parameters {
    Parameters(
      Pick(m, "keyvaultName", into.keyvaultName),
      Pick(m, "tenantId", into.tenantId),
      Pick(m, "objects", into.objects),
      Pick(m, "usePodIdentity", into.usePodIdentity),
      Pick(m, "useVMManagedIdentity", into.useVMManagedIdentity),
      Pick(m, "userAssignedIdentityId", into.userAssignedIdentityId))
  }

  function DecodeSecrets(m: map<string, string>, into: Secrets): Secrets {
    Secrets(Pick(m, "clientid", into.clientId), Pick(m, "clientsecret", into.clientSecret))
  }

  /** Decoding into a zero struct keeps exactly the named keys. */
  lemma DecodeSecretsFromZero(m: map<string, string>)
    ensures DecodeSecrets(m, ZeroSecrets).clientId == (if "clientid" in m then m["clientid"] else "")
    ensures DecodeSecrets(m, ZeroSecrets).clientSecret == (if "clientsecret" in m then m["clientsecret"] else "")
    ensures forall s :: DecodeSecrets(map[], s) == s
  {
  }

  // ---------------------------------------------------------------------
  // JSON text, as encoding/json writes it (HTML-safe string escaping).

  const HexDigits := "0123456789abcdef"

  /** The escape sequence encoding/json writes for one character. */
  function EscapeChar(c: char): string {
    if c == '"' then "\\\""
    else if c == '\\' then "\\\\"
    else if c == '\n' then "\\n"
    else if c == '\r' then "\\r"
    else if c == '\t' then "\\t"
    else if (c as int) < 0x20 || c == '<' || c == '>' || c == '&' then
      "\\u00" + [HexDigits[(c as int) / 16], HexDigits[(c as int) % 16]]
    else if c as int == 0x2028 || c as int == 0x2029 then
      "\\u202" + [HexDigits[(c as int) % 16]]
    else [c]
  }

  function EscapeString(s: string): string {
    if s == [] then "" else EscapeChar(s[0]) + EscapeString(s[1..])
  }

  function JsonString(s: string): string {
    "\"" + EscapeString(s) + "\""
  }

  /** A member `"key":"value"`; the keys are struct tags made of letters,
      which escaping leaves as they are, so they are written out directly. */
  function JsonMember(key: string, value: string): string {
    "\"" + key + "\":" + JsonString(value)
  }

  /** The members of a struct of strings, comma-separated, in order. */
  function JsonMembers(members: seq<(string, string)>): string {
    if members == [] then ""
    else if |members| == 1 then JsonMember(members[0].0, members[0].1)
    else JsonMember(members[0].0, members[0].1) + "," + JsonMembers(members[1..])
  }

  /** A struct of string fields as a JSON object. */
  function JsonObject(members: seq<(string, string)>): (r: string)
    ensures |r| > 0 && r[0] == '{'
  {
    "{" + JsonMembers(members) + "}"
  }

  /** `json.Marshal(&Parameters{...})`: fields in declaration order. */
  function EncodeParameters(p: Parameters): (r: string)
    ensures |r| > 0 && r[0] == '{'
  {
    JsonObject([("keyvaultName", p.keyvaultName), ("tenantId", p.tenantId), ("objects", p.objects),
                ("usePodIdentity", p.usePodIdentity), ("useVMManagedIdentity", p.useVMManagedIdentity),
                ("userAssignedIdentityId", p.userAssignedIdentityId)])
  }

  /** `json.Marshal(&Secrets{...})`. */
  function EncodeSecrets(s: Secrets): (r: string)
    ensures |r| > 0 && r[0] == '{'
  {
    JsonObject([("clientid", s.clientId), ("clientsecret", s.clientSecret)])
  }

  function Digit(d: nat): char
    requires d < 10
  {
    "0123456789"[d]
  }

  function NatToDecimal(n: nat): (s: string)
    ensures |s| > 0
    ensures forall i :: 0 <= i < |s| ==> '0' <= s[i] <= '9'
    decreases n
  {
    if n < 10 then [Digit(n)] else NatToDecimal(n / 10) + [Digit(n % 10)]
  }

  /** `json.Marshal` of an `int`: decimal digits, a leading `-` when negative. */
  function EncodeInt(n: int): string {
    if n < 0 then "-" + NatToDecimal(-n) else NatToDecimal(n)
  }

  /** The number a string of decimal digits denotes. */
  function DecimalValue(s: string): nat
    requires forall i :: 0 <= i < |s| ==> '0' <= s[i] <= '9'
  {
    if s == [] then 0 else 10 * DecimalValue(s[..|s| - 1]) + (s[|s| - 1] as int - '0' as int)
  }

  /** The decimal rendering of a number reads back as that number. */
  lemma {:induction false} DecimalRoundTrip(n: nat)
    ensures DecimalValue(NatToDecimal(n)) == n
  {
    if n >= 10 {
      var s := NatToDecimal(n);
      assert s[..|s| - 1] == NatToDecimal(n / 10);
      DecimalRoundTrip(n / 10);
    }
  }

  /** The two file modes the drafts produce. */
  lemma PermissionRendering()
    ensures EncodeInt(420) == "420" && EncodeInt(0) == "0"
  {
  }

  // ---------------------------------------------------------------------
  // The provider command.

  const ProviderVolumePath := "/etc/kubernetes/secrets-store-csi-providers"

  /** `fmt.Sprintf("%s/%s/provider-%s", providerVolumePath, p, p)`. */
  function ProviderBinaryPath(provider: string): string {
    ProviderVolumePath + "/" + provider + "/provider-" + provider
  }

  /** The argument vector handed to the provider binary. */
  function ProviderArgs(attributes: string, secrets: string, targetPath: string, permission: string): seq<string> {
    ["--attributes", attributes, "--secrets", secrets, "--targetPath", targetPath, "--permission", permission]
  }

  /** One provider invocation: the binary, its arguments, and the strings
      that reached diagnostic output while invoking it. */
  datatype ProviderCall = ProviderCall(binary: string, args: seq<string>, logged: seq<string>)

  /** The fixed text the info line prints in place of the attributes and
      the secrets. */
  const RedactedFlags := "--attributes [REDACTED] --secrets [REDACTED]"

  /** What the `log.Infof` diagnostic of every draft prints: the binary, the
      redaction text, and `args[4:]`. */
  function InfoLine(binary: string, args: seq<string>): seq<string>
    requires |args| >= 4
  {
    [binary, RedactedFlags] + args[4..]
  }

  /** The info line leaves out the attributes and the secrets, both JSON
      objects, unless the target path or the permission is that very text. */
  lemma InfoLineRedacts(provider: string, attributes: string, secrets: string, targetPath: string, permission: string)
    requires |attributes| > 0 && attributes[0] == '{'
    requires |secrets| > 0 && secrets[0] == '{'
    ensures InfoLine(ProviderBinaryPath(provider), ProviderArgs(attributes, secrets, targetPath, permission))
            == [ProviderBinaryPath(provider), RedactedFlags, "--targetPath", targetPath, "--permission", permission]
    ensures attributes in InfoLine(ProviderBinaryPath(provider), ProviderArgs(attributes, secrets, targetPath, permission))
            ==> attributes == targetPath || attributes == permission
    ensures secrets in InfoLine(ProviderBinaryPath(provider), ProviderArgs(attributes, secrets, targetPath, permission))
            ==> secrets == targetPath || secrets == permission
  {
    var binary := ProviderBinaryPath(provider);
    var line := InfoLine(binary, ProviderArgs(attributes, secrets, targetPath, permission));
    assert line == [binary, RedactedFlags, "--targetPath", targetPath, "--permission", permission];
    assert ProviderVolumePath[0] == '/' && binary[0] == '/';
    assert RedactedFlags[0] == '-' && "--targetPath"[0] == '-' && "--permission"[0] == '-';
  }

  // ---------------------------------------------------------------------
  // Secret data re-keyed into strings.

  /** Go's `string(v)` on a byte slice: one character per byte. */
  function BytesToString(b: seq<byte>): (s: string)
    ensures |s| == |b|
    ensures forall i :: 0 <= i < |b| ==> s[i] as int == b[i] as int
  {
    seq(|b|, i requires 0 <= i < |b| => (b[i] as int) as char)
  }

  /** The string map built from a secret's data, one entry per key. */
  function SecretStrings(data: map<string, seq<byte>>): map<string, string> {
    map k | k in data :: BytesToString(data[k])
  }

  /** `for k, v := range secret.Data { k8sSecrets[k] = string(v) }`. */
  method SecretDataToStrings(data: map<string, seq<byte>>) returns (m: map<string, string>)
    ensures m.Keys == data.Keys
    ensures forall k :: k in data ==> m[k] == BytesToString(data[k])
    ensures m == SecretStrings(data)
  {
    m := map[];
    var pending := data.Keys;
    while pending != {}
      invariant pending <= data.Keys
      invariant m.Keys == data.Keys - pending
      invariant forall k :: k in m ==> m[k] == BytesToString(data[k])
      decreases pending
    {
      var k :| k in pending;
      m := m[k := BytesToString(data[k])];
      pending := pending - {k};
    }
  }

  /** The credentials a secret yields: its data re-keyed to strings and
      decoded into `into`, so that `clientid` and `clientsecret` of the data
      replace the two fields and an absent key keeps the old value; when the
      secret cannot be read, the lookup error. */
  function CredentialsFromSecret(c: Cluster, name: string, namespace: string, into: Secrets): (r: Result<Secrets, Error>)
    ensures var key := ObjectKey(namespace, name);
            && (r.Ok? <==> key in c.secrets && c.secrets[key].Found?)
            && (r.Ok? ==>
                  var data := c.secrets[key].value.data;
                  && r.value.clientId == (if "clientid" in data then BytesToString(data["clientid"]) else into.clientId)
                  && r.value.clientSecret
                     == (if "clientsecret" in data then BytesToString(data["clientsecret"]) else into.clientSecret))
            && (r.Err? ==> r.error == Api(Get(c.secrets, key).error))
  {
    match GetK8sSecret(c, name, namespace)
    case Err(e) => Err(e)
    case Ok(secret) => Ok(DecodeSecrets(SecretStrings(secret.data), into))
  }

  /** The same over the lookup as written: only a client that cannot be made
      is an error; a secret that is missing or cannot be read decodes as an
      empty one, so `into` comes back unchanged. */
  function CredentialsFromSecretAsWritten(c: Cluster, name: string, namespace: string, into: Secrets)
    : (r: Result<Secrets, Error>)
    ensures var key := ObjectKey(namespace, name);
            && (r.Err? <==> Get(c.secrets, key) == Err(ClientError))
            && (r.Err? ==> r.error == Api(ClientError))
            && (key in c.secrets && c.secrets[key].Found? ==> r == CredentialsFromSecret(c, name, namespace, into))
            && (r.Ok? && Get(c.secrets, key).Err? ==> r.value == into)
  {
    match GetK8sSecretAsWritten(c, name, namespace)
    case Err(e) => Err(e)
    case Ok(secret) => Ok(DecodeSecrets(SecretStrings(secret.data), into))
  }

  /** A secret that is not in the cluster: as written the credentials are
      left as they were and no error is seen; corrected, the lookup error
      comes back. */
  lemma CredentialsMissingSecret(c: Cluster, name: string, namespace: string, into: Secrets)
    requires ObjectKey(namespace, name) !in c.secrets
    ensures CredentialsFromSecretAsWritten(c, name, namespace, into) == Ok(into)
    ensures CredentialsFromSecret(c, name, namespace, into) == Err(Api(NotFound(ObjectKey(namespace, name))))
  {
  }
}
