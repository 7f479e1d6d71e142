/** The configuration store of the backend (pkg/configure_path.go): the write
    handler validates `base_url` and replaces the single record stored under
    the key "config"; the read handler and `loadPluginConfig` look it up. */
module ConfigurePath {
  import opened Common
  import opened Errors
  import opened Logical

  const ConfigPath: string := "config"

  /** The declared default of the `max_ttl` field: 30 minutes. */
  const DefaultMaxTtl: GoInt := 1800

  /** The stored configuration. The first seven fields are those of the
      struct; `defaultTtl` and `host` are the `DefaulTTL` and `Host` that
      create.go reads, which carry no JSON tag and so are encoded under
      their Go field names. */
  datatype PluginConfig = PluginConfig(
    maxTtl: GoInt,
    adminRole: string,
    editorRole: string,
    viewerRole: string,
    serviceAccountJwt: string,
    caCert: string,
    baseUrl: string,
    defaultTtl: GoInt,
    host: string)

  // The JSON encoding of the record, as `encoding/json` performs it.

  function EncodeConfig(c: PluginConfig): (o: JsonObject)
    ensures DecodeConfig(o) == Success(c)
  {
    map[
      "max_ttl" := JNumber(c.maxTtl),
      "admin_role" := JString(c.adminRole),
      "editor_role" := JString(c.editorRole),
      "viewer_role" := JString(c.viewerRole),
      "jwt" := JString(c.serviceAccountJwt),
      "ca_cert" := JString(c.caCert),
      "base_url" := JString(c.baseUrl),
      "DefaulTTL" := JNumber(c.defaultTtl),
      "Host" := JString(c.host)]
  }

  /** A Go `int` field: absent or null leaves the zero value; a number must
      fit; anything else is a type error. */
  function DecodeInt(o: JsonObject, key: string): (r: Result<GoInt, Error>)
    ensures key !in o ==> r == Success(0)
    ensures key in o && o[key].JNull? ==> r == Success(0)
    ensures key in o && o[key].JNumber? && MinGoInt <= o[key].n <= MaxGoInt ==> r == Success(o[key].n)
    ensures key in o && o[key].JNumber? && !(MinGoInt <= o[key].n <= MaxGoInt) ==> r == Failure(MalformedConfig)
    ensures key in o && !o[key].JNull? && !o[key].JNumber? ==> r == Failure(MalformedConfig)
  {
    if key !in o then Success(0)
    else match o[key]
      case JNull => Success(0)
      case JNumber(n) => if MinGoInt <= n <= MaxGoInt then Success(n) else Failure(MalformedConfig)
      case _ => Failure(MalformedConfig)
  }

  /** A Go `string` field: absent or null leaves ""; a string is taken;
      anything else is a type error. */
  function DecodeString(o: JsonObject, key: string): (r: Result<string, Error>)
    ensures key !in o ==> r == Success("")
    ensures key in o && o[key].JNull? ==> r == Success("")
    ensures key in o && o[key].JString? ==> r == Success(o[key].s)
    ensures key in o && !o[key].JNull? && !o[key].JString? ==> r == Failure(MalformedConfig)
  {
    if key !in o then Success("")
    else match o[key]
      case JNull => Success("")
      case JString(s) => Success(s)
      case _ => Failure(MalformedConfig)
  }

  /** `json.Unmarshal` into a `PluginConfig`: unknown keys are ignored, and
      any field of the wrong type makes the whole decode fail. */
  function DecodeConfig(o: JsonObject): (r: Result<PluginConfig, Error>)
    ensures r.Failure? ==> r.error == MalformedConfig
    ensures r.Success? <==>
      && DecodeInt(o, "max_ttl").Success? && DecodeString(o, "admin_role").Success?
      && DecodeString(o, "editor_role").Success? && DecodeString(o, "viewer_role").Success?
      && DecodeString(o, "jwt").Success? && DecodeString(o, "ca_cert").Success?
      && DecodeString(o, "base_url").Success? && DecodeInt(o, "DefaulTTL").Success? && DecodeString(o, "Host").Success?
    ensures r.Success? ==>
      && DecodeInt(o, "max_ttl") == Success(r.value.maxTtl)
      && DecodeString(o, "admin_role") == Success(r.value.adminRole)
      && DecodeString(o, "editor_role") == Success(r.value.editorRole)
      && DecodeString(o, "viewer_role") == Success(r.value.viewerRole)
      && DecodeString(o, "jwt") == Success(r.value.serviceAccountJwt)
      && DecodeString(o, "ca_cert") == Success(r.value.caCert)
      && DecodeString(o, "base_url") == Success(r.value.baseUrl)
      && DecodeInt(o, "DefaulTTL") == Success(r.value.defaultTtl)
      && DecodeString(o, "Host") == Success(r.value.host)
  {
    var maxTtl := DecodeInt(o, "max_ttl");
    var adminRole := DecodeString(o, "admin_role");
    var editorRole := DecodeString(o, "editor_role");
    var viewerRole := DecodeString(o, "viewer_role");
    var jwt := DecodeString(o, "jwt");
    var caCert := DecodeString(o, "ca_cert");
    var baseUrl := DecodeString(o, "base_url");
    var defaultTtl := DecodeInt(o, "DefaulTTL");
    var host := DecodeString(o, "Host");
    if maxTtl.Success? && adminRole.Success? && editorRole.Success? && viewerRole.Success?
       && jwt.Success? && caCert.Success? && baseUrl.Success? && defaultTtl.Success? && host.Success?
    then Success(PluginConfig(maxTtl.value, adminRole.value, editorRole.value, viewerRole.value,
                              jwt.value, caCert.value, baseUrl.value, defaultTtl.value, host.value))
    else Failure(MalformedConfig)
  }

  /** `loadPluginConfig`: the stored record, nothing when none is stored, or
      the storage or decoding error. */
  function LoadPluginConfig(s: Storage): (r: Result<Option<PluginConfig>, Error>)
    reads s
    ensures s.getFault ==> r == Failure(StorageFailure)
    ensures !s.getFault && ConfigPath !in s.entries ==> r == Success(None)
    ensures !s.getFault && ConfigPath in s.entries ==>
      match DecodeConfig(s.entries[ConfigPath])
      case Success(c) => r == Success(Some(c))
      case Failure(e) => r == Failure(e)
  {
    match s.Get(ConfigPath)
    case Failure(e) => Failure(e)
    case Success(None) => Success(None)
    case Success(Some(raw)) =>
      match DecodeConfig(raw)
      case Failure(e) => Failure(e)
      case Success(c) => Success(Some(c))
  }

  /** The fields of a configuration write. An absent `max_ttl` is `None`;
      the string fields read as "" when absent. */
  datatype ConfigWriteRequest = ConfigWriteRequest(
    maxTtl: Option<GoInt>,
    adminRole: string,
    editorRole: string,
    viewerRole: string,
    jwt: string,
    caCert: string,
    baseUrl: string)

  /** The data of a configuration read: the seven stored fields. */
  datatype ConfigData = ConfigData(
    maxTtl: GoInt,
    adminRole: string,
    editorRole: string,
    viewerRole: string,
    jwt: string,
    caCert: string,
    baseUrl: string)

  /** The record the write handler builds: the seven request fields, with
      the declared default for `max_ttl`. Nothing sets `DefaulTTL` or
      `Host`, so they keep Go's zero values. */
  function ConfigFromRequest(d: ConfigWriteRequest): (c: PluginConfig)
    ensures d.maxTtl.None? ==> c.maxTtl == DefaultMaxTtl
    ensures d.maxTtl.Some? ==> c.maxTtl == d.maxTtl.value
    ensures c.defaultTtl == 0 && c.host == ""
  {
    PluginConfig(d.maxTtl.GetOr(DefaultMaxTtl), d.adminRole, d.editorRole, d.viewerRole,
                 d.jwt, d.caCert, d.baseUrl, 0, "")
  }

  function ConfigDataOf(c: PluginConfig): ConfigData {
    ConfigData(c.maxTtl, c.adminRole, c.editorRole, c.viewerRole, c.serviceAccountJwt, c.caCert, c.baseUrl)
  }

  /** What a read returns after a write of `d`: every written field, with the
      declared default for an absent `max_ttl`. */
  function WrittenData(d: ConfigWriteRequest): ConfigData {
    ConfigData(d.maxTtl.GetOr(DefaultMaxTtl), d.adminRole, d.editorRole, d.viewerRole, d.jwt, d.caCert, d.baseUrl)
  }

  /** `handleConfigRead`: the stored fields, no response when nothing is
      stored, or the error of the load. */
  function HandleConfigRead(s: Storage): (r: Result<Option<ConfigData>, Error>)
    reads s
    ensures r == Success(None) <==> LoadPluginConfig(s) == Success(None)
    ensures r.Failure? <==> LoadPluginConfig(s).Failure?
    ensures r.Failure? ==> r.error == LoadPluginConfig(s).error
    ensures r.Success? && r.value.Some? ==>
      LoadPluginConfig(s).Success? && LoadPluginConfig(s).value.Some? &&
      r.value.value == ConfigDataOf(LoadPluginConfig(s).value.value)
  {
    match LoadPluginConfig(s)
    case Failure(e) => Failure(e)
    case Success(None) => Success(None)
    case Success(Some(c)) => Success(Some(ConfigDataOf(c)))
  }

  /** A written record reads back with exactly the written fields. */
  lemma WriteThenRead(d: ConfigWriteRequest)
    ensures DecodeConfig(EncodeConfig(ConfigFromRequest(d))) == Success(ConfigFromRequest(d))
    ensures ConfigDataOf(ConfigFromRequest(d)) == WrittenData(d)
  {
  }

  /** `handleConfigWrite`. An unparsable `base_url` is rejected and storage is
      left as it was; otherwise the record under "config" is replaced by one
      built from the request alone (nothing of the previous record is kept),
      and a later read returns the written fields. */
  method HandleConfigWrite(s: Storage, d: ConfigWriteRequest, lib: Library) returns (r: Outcome<Error>)
    modifies s
    ensures s.getFault == old(s.getFault) && s.putFault == old(s.putFault)
    ensures !lib.urlParses(d.baseUrl) ==> r == Fail(InvalidBaseUrl(d.baseUrl)) && s.entries == old(s.entries)
    ensures lib.urlParses(d.baseUrl) && s.putFault ==> r == Fail(StorageFailure) && s.entries == old(s.entries)
    ensures lib.urlParses(d.baseUrl) && !s.putFault ==>
      r == Pass && s.entries == old(s.entries)[ConfigPath := EncodeConfig(ConfigFromRequest(d))]
    ensures r == Pass && !s.getFault ==> HandleConfigRead(s) == Success(Some(WrittenData(d)))
  {
    var ttl := d.maxTtl.GetOr(DefaultMaxTtl);
    if !lib.urlParses(d.baseUrl) {
      return Fail(InvalidBaseUrl(d.baseUrl));
    }
    var config := PluginConfig(ttl, d.adminRole, d.editorRole, d.viewerRole, d.jwt, d.caCert, d.baseUrl, 0, "");
    var entry := EncodeConfig(config);
    r := s.Put(ConfigPath, entry);
  }

  /** The operations Vault routes to a path. */
  datatype Operation = CreateOperation | ReadOperation | UpdateOperation | DeleteOperation | ListOperation

  /** The callbacks registered on the "config" path. */
  datatype ConfigCallback = ConfigWrite | ConfigRead

  /** The handler table of the "config" path: create and update share the
      write handler, read has the read handler, nothing else is served. */
  function ConfigCallbackFor(op: Operation): (r: Option<ConfigCallback>)
    ensures r == Some(ConfigWrite) <==> op == CreateOperation || op == UpdateOperation
    ensures r == Some(ConfigRead) <==> op == ReadOperation
    ensures r.None? <==> op == DeleteOperation || op == ListOperation
  {
    match op
    case CreateOperation => Some(ConfigWrite)
    case UpdateOperation => Some(ConfigWrite)
    case ReadOperation => Some(ConfigRead)
    case _ => None
  }
}
