/** The read path that issues credentials (pkg/read_sa_path.go): it
    lower-cases the requested service-account type, checks it against a fixed
    allow-list and hands the request to `createSecret`. */
module ReadSaPath {
  import opened Common
  import opened Errors
  import opened Logical
  import opened ConfigurePath
  import opened Kubernetes
  import opened Create

  /** The declared default of the `ttl` field, in seconds. */
  const DefaultRequestTtl: GoInt := 600

  /** `getAllowedSATypes`: the allow-list. Its entries are already lower
      case, and each is a type `getClusterRoleName` resolves. */
  function AllowedSATypes(): (r: seq<string>)
    ensures |r| == 3
    ensures forall i :: 0 <= i < |r| ==> ToLower(r[i]) == r[i] && IsServiceAccountType(r[i])
  {
    ["admin", "editor", "viewer"]
  }

  /** `unicode.ToLower` on the runes whose lower case is an ASCII letter: the
      ASCII capitals, U+0130 (capital I with dot above, to 'i') and U+212A
      (the Kelvin sign, to 'k'). Every other rune is kept. */
  function LowerChar(ch: char): char {
    if 'A' <= ch <= 'Z' then (ch as int - 'A' as int + 'a' as int) as char
    else if ch == '\U{0130}' then 'i'
    else if ch == '\U{212A}' then 'k'
    else ch
  }

  /** `strings.ToLower`, rune by rune. */
  function ToLower(s: string): (r: string)
    ensures |r| == |s|
    ensures forall i :: 0 <= i < |s| ==> r[i] == LowerChar(s[i])
  {
    seq(|s|, i requires 0 <= i < |s| => LowerChar(s[i]))
  }

  /** The scan of the allow-list (lines 59-65): the type is found exactly
      when it is one of the allowed types. */
  method FindAllowedType(saType: string) returns (saTypeFound: bool)
    ensures saTypeFound <==> saType in AllowedSATypes()
  {
    var allowed := AllowedSATypes();
    saTypeFound := false;
    var i := 0;
    while i < |allowed|
      invariant 0 <= i <= |allowed|
      invariant saType !in allowed[..i]
    {
      if saType == allowed[i] {
        saTypeFound := true;
        break;
      }
      i := i + 1;
    }
  }

  /** The fields of a read on `service_account/<namespace>/<type>`; an
      absent `ttl` is `None`. */
  datatype ReadRequest = ReadRequest(saType: string, namespace: string, ttl: Option<GoInt>)

  /** The `ttl` the handler passes on: the request's, or the declared default. */
  function RequestedTtl(d: ReadRequest): (t: GoInt)
    ensures d.ttl.None? ==> t == DefaultRequestTtl
    ensures d.ttl.Some? ==> t == d.ttl.value
  {
    d.ttl.GetOr(DefaultRequestTtl)
  }

  /** Lower-casing is decided rune by rune. */
  lemma LowersTo(s: string, t: string)
    requires |s| == |t| && forall i :: 0 <= i < |s| ==> LowerChar(s[i]) == t[i]
    ensures ToLower(s) == t
  {
  }

  /** The types the handler accepts, whatever their case. */
  predicate Accepted(d: ReadRequest) {
    ToLower(d.saType) in AllowedSATypes()
  }

  /** Every accepted type gets past `getClusterRoleName` once a
      configuration is loaded. */
  lemma AcceptedResolves(d: ReadRequest, config: PluginConfig)
    requires Accepted(d)
    ensures GetClusterRoleName(Some(config), ToLower(d.saType)).Success?
  {
  }

  /** A type is accepted exactly when its lower-case form is one of "admin",
      "editor" and "viewer". */
  lemma AcceptedTypes(d: ReadRequest)
    ensures Accepted(d) <==> ToLower(d.saType) == "admin" || ToLower(d.saType) == "editor" || ToLower(d.saType) == "viewer"
  {
  }

  /** The runes that lower-case to 'i' are 'i', 'I' and U+0130, and those
      that lower-case to 'k' are 'k', 'K' and U+212A. */
  lemma LowerCaseLetters()
    ensures forall ch :: LowerChar(ch) == 'i' <==> ch == 'i' || ch == 'I' || ch == '\U{0130}'
    ensures forall ch :: LowerChar(ch) == 'k' <==> ch == 'k' || ch == 'K' || ch == '\U{212A}'
  {
  }

  /** "Viewer", "vİewer" and "viewer" are treated alike, and so are "ADMIN",
      "ADMİN" and "admin". */
  lemma CaseVariantsAccepted(ttl: Option<GoInt>)
    ensures Accepted(ReadRequest("Viewer", "ns", ttl)) && Accepted(ReadRequest("v\U{0130}ewer", "ns", ttl))
    ensures Accepted(ReadRequest("ADMIN", "ns", ttl)) && Accepted(ReadRequest("ADM\U{0130}N", "ns", ttl))
    ensures ToLower("v\U{0130}ewer") == "viewer" && ToLower("ADM\U{0130}N") == "admin"
  {
    LowersTo("Viewer", "viewer");
    LowersTo("v\U{0130}ewer", "viewer");
    LowersTo("ADMIN", "admin");
    LowersTo("ADM\U{0130}N", "admin");
    assert "viewer" in AllowedSATypes() && "admin" in AllowedSATypes();
  }

  /** `handleReadForRole`. Without field data, or with a type outside the
      allow-list, it returns an error and makes no Kubernetes call; the
      error names the lower-cased type and the allow-list. An accepted type
      is issued lower-cased, with the namespace and the TTL (or its
      default) passed through. */
  method HandleReadForRole(b: Backend, s: Storage, d: Option<ReadRequest>) returns (r: Result<SecretResponse, Error>)
    requires b.cluster.Valid()
    requires d.Some? && Accepted(d.value) ==> LoadPluginConfig(s) != Success(None)
    modifies b.cluster
    ensures b.cluster.Valid()
    ensures d.None? ==> r == Failure(MissingFieldData) && b.cluster.State() == old(b.cluster.State())
    ensures d.Some? && !Accepted(d.value) ==>
      && r == Failure(TypeNotAllowed(ToLower(d.value.saType), AllowedSATypes()))
      && b.cluster.State() == old(b.cluster.State())
    ensures d.Some? && Accepted(d.value) ==>
      Issued(b.cluster.State(), r)
      == Issue(old(b.cluster.State()), LoadPluginConfig(s), ToLower(d.value.saType), d.value.namespace,
               RequestedTtl(d.value), b.lib)
  {
    if d.None? {
      return Failure(MissingFieldData);
    }
    var saType := ToLower(d.value.saType);
    var saTypeFound := FindAllowedType(saType);
    if !saTypeFound {
      return Failure(TypeNotAllowed(saType, AllowedSATypes()));
    }
    var namespace := d.value.namespace;
    var ttl := RequestedTtl(d.value);
    r := b.CreateSecret(s, saType, namespace, ttl);
  }
}
