/** Issuance and revocation of service-account credentials (pkg/create.go).

    `createSecret` loads the configuration, resolves the service-account type
    to a role, clamps the TTL, creates a service account, fetches its one
    token secret, binds the role to it and builds the lease response; when a
    step after the account's creation fails it deletes the account again.
    `revokeSecret` deletes the role binding and then the service account.

    Both are methods of `Backend` that call the fake cluster. Each is proved
    equal to a pure function of the old cluster state (`Issue`, `Revoke`),
    and the lemmas below state what those functions promise. */
module Create {
  import opened Common
  import opened Errors
  import opened Logical
  import opened ConfigurePath
  import opened Kubernetes

  // Resolution of the service-account type.

  /** The types `getClusterRoleName` has a case for. */
  predicate IsServiceAccountType(saType: string) {
    saType == "admin" || saType == "editor" || saType == "viewer"
  }

  /** `getClusterRoleName`: the configured role of the type. The
      configuration is a pointer in Go; it is only dereferenced for a known
      type, so an absent configuration is allowed with an unknown type. */
  function GetClusterRoleName(config: Option<PluginConfig>, saType: string): (r: Result<string, Error>)
    requires config.None? ==> !IsServiceAccountType(saType)
    ensures r.Success? <==> IsServiceAccountType(saType)
    ensures saType == "admin" ==> r == Success(config.value.adminRole)
    ensures saType == "editor" ==> r == Success(config.value.editorRole)
    ensures saType == "viewer" ==> r == Success(config.value.viewerRole)
    ensures r.Failure? ==> r.error == InvalidServiceAccountType(saType)
  {
    match saType
    case "admin" => Success(config.value.adminRole)
    case "editor" => Success(config.value.editorRole)
    case "viewer" => Success(config.value.viewerRole)
    case _ => Failure(InvalidServiceAccountType(saType))
  }

  // The TTL policy.

  /** The effective TTL of a request: a non-positive request falls back to
      the default, and the result never exceeds the maximum. */
  function ClampTtl(ttl: GoInt, defaultTtl: GoInt, maxTtl: GoInt): (r: GoInt)
    ensures r <= maxTtl
    ensures 0 < ttl <= maxTtl ==> r == ttl
    ensures 0 < ttl && maxTtl < ttl ==> r == maxTtl
    ensures ttl <= 0 && defaultTtl <= maxTtl ==> r == defaultTtl
    ensures ttl <= 0 && maxTtl < defaultTtl ==> r == maxTtl
  {
    var t := if ttl <= 0 then defaultTtl else ttl;
    if t > maxTtl then maxTtl else t
  }

  // The kubeconfig handed to the caller.

  datatype KubeCluster = KubeCluster(name: string, certificateAuthorityData: string, server: string)
  datatype KubeContext = KubeContext(name: string, cluster: string, namespace: string, user: string)
  datatype KubeUser = KubeUser(name: string, token: string)

  /** A kubeconfig document with one cluster, one context and one user. */
  datatype KubeConfigDoc = KubeConfigDoc(
    cluster: KubeCluster,
    context: KubeContext,
    currentContext: string,
    user: KubeUser)

  /** Where a client holding a kubeconfig connects, and as whom. */
  datatype ClusterAccess = ClusterAccess(
    server: string,
    certificateAuthorityData: string,
    namespace: string,
    token: string)

  /** What a client makes of the document: the current context, looked up by
      name, and the cluster and user that context names. */
  function Resolve(k: KubeConfigDoc): Option<ClusterAccess> {
    if k.currentContext == k.context.name && k.context.cluster == k.cluster.name && k.context.user == k.user.name
    then Some(ClusterAccess(k.cluster.server, k.cluster.certificateAuthorityData, k.context.namespace, k.user.token))
    else None
  }

  /** The document `generateKubeConfig` fills in: the account name names the
      cluster, the context, the user and the current context, so a client
      reaches the configured host, trusts the base64 form of the CA cert and
      presents the token, in the given namespace. */
  function KubeConfigFor(config: PluginConfig, caCert: string, token: string, name: string, namespace: string,
                         base64Encode: string -> string): (k: KubeConfigDoc)
    ensures Resolve(k) == Some(ClusterAccess(config.host, base64Encode(caCert), namespace, token))
    ensures k.cluster.name == name && k.context.name == name && k.user.name == name && k.currentContext == name
  {
    KubeConfigDoc(
      KubeCluster(name, base64Encode(caCert), config.host),
      KubeContext(name, name, namespace, name),
      name,
      KubeUser(name, token))
  }

  /** The text before the first value of the document. */
  const KubeConfigHeader: string := "apiVersion: v1\nclusters:\n- cluster:\n    certificate-authority-data: "

  /** The text before the last value of the document, the user's token. */
  const KubeConfigTokenKey: string := "\n  user:\n    token: "

  /** The YAML text of the document, laid out as in `generateKubeConfig`: it
      opens with the cluster's CA data and closes with the user's token. */
  function Render(k: KubeConfigDoc): (r: string)
    ensures KubeConfigHeader + k.cluster.certificateAuthorityData <= r
    ensures |KubeConfigTokenKey + k.user.token| <= |r|
    ensures r[|r| - |KubeConfigTokenKey + k.user.token|..] == KubeConfigTokenKey + k.user.token
  {
    var head := KubeConfigHeader + k.cluster.certificateAuthorityData;
    var body := "\n    server: " + k.cluster.server
      + "\n  name: " + k.cluster.name
      + "\ncontexts:\n- context:\n    cluster: " + k.context.cluster
      + "\n    namespace: " + k.context.namespace
      + "\n    user: " + k.context.user
      + "\n  name: " + k.context.name
      + "\ncurrent-context: " + k.currentContext
      + "\nkind: Config\npreferences: {}\nusers:\n- name: " + k.user.name;
    var tail := KubeConfigTokenKey + k.user.token;
    assert head <= head + body;
    head + body + tail
  }

  /** `generateKubeConfig`: the text of a document through which a client
      reaches the configured host, trusting the base64 form of the CA cert
      and presenting the token in the namespace; the CA data comes first and
      the token last (see `Render`). */
  function GenerateKubeConfig(config: PluginConfig, caCert: string, token: string, name: string, namespace: string,
                              base64Encode: string -> string): (r: string)
    ensures exists k ::
              && r == Render(k) && k.currentContext == name
              && Resolve(k) == Some(ClusterAccess(config.host, base64Encode(caCert), namespace, token))
  {
    Render(KubeConfigFor(config, caCert, token, name, namespace, base64Encode))
  }

  // The responses.

  /** The data of an issued secret. */
  datatype SecretData = SecretData(
    caCert: string,
    namespace: string,
    serviceAccountToken: string,
    serviceAccountName: string,
    roleBindingName: string,
    kubeConfig: string)

  /** The lease options, with durations in seconds. */
  datatype Lease = Lease(ttl: int, maxTtl: int, renewable: bool)

  datatype SecretResponse = SecretResponse(data: SecretData, lease: Lease)

  /** The cluster after an issuance, and its result. */
  datatype Issued = Issued(cluster: Cluster, result: Result<SecretResponse, Error>)

  /** The fields a revocation reads: the names the issued secret carries. */
  datatype RevokeRequest = RevokeRequest(namespace: string, serviceAccountName: string, roleBindingName: string)

  datatype RevokeResponse = RevokeResponse(serviceAccountName: string)

  /** The cluster after a revocation, and its result. */
  datatype Revoked = Revoked(cluster: Cluster, result: Result<RevokeResponse, Error>)

  /** The issuance gets past loading the configuration and resolving the type. */
  predicate Resolvable(loaded: Result<Option<PluginConfig>, Error>, saType: string) {
    loaded.Success? && loaded.value.Some? && IsServiceAccountType(saType)
  }

  /** What `createSecret` does, given the loaded configuration and the
      cluster it starts from. */
  function Issue(c: Cluster, loaded: Result<Option<PluginConfig>, Error>, saType: string, namespace: string,
                 ttl: GoInt, lib: Library): (i: Issued)
    requires loaded == Success(None) ==> !IsServiceAccountType(saType)
    ensures !Resolvable(loaded, saType) ==> i.cluster == c && i.result.Failure?
    ensures c.log <= i.cluster.log && |i.cluster.log| <= |c.log| + 4
    ensures i.cluster.faults == c.faults && i.cluster.tokens == c.tokens
    ensures i.result.Success? ==> |i.cluster.log| == |c.log| + 3
  {
    if loaded.Failure? then Issued(c, Failure(loaded.error))
    else
      var roleName := GetClusterRoleName(loaded.value, saType);
      if roleName.Failure? then Issued(c, Failure(roleName.error))
      else
        var config := loaded.value.value;
        var effectiveTtl := ClampTtl(ttl, config.defaultTtl, config.maxTtl);
        var created := CreateServiceAccountStep(c, namespace);
        if created.result.Failure? then Issued(created.cluster, Failure(Remote(created.result.error)))
        else IssueWithAccount(created.cluster, created.result.value, config, roleName.value, namespace, effectiveTtl, lib)
  }

  /** The rest of `createSecret` once the account `sa` exists: fetch its
      secrets, bind the role and build the response. */
  function IssueWithAccount(c: Cluster, sa: ServiceAccountDetails, config: PluginConfig, roleName: string,
                            namespace: string, effectiveTtl: GoInt, lib: Library): Issued
  {
    var fetched := GetServiceAccountSecretStep(c, sa);
    if fetched.result.Failure? then
      Issued(DeleteServiceAccountStep(fetched.cluster, sa.namespace, sa.name).cluster,
             Failure(Remote(fetched.result.error)))
    else if |fetched.result.value| != 1 then
      Issued(DeleteServiceAccountStep(fetched.cluster, sa.namespace, sa.name).cluster,
             Failure(UnexpectedSecretCount(|fetched.result.value|)))
    else IssueWithSecret(fetched.cluster, sa, fetched.result.value[0], config, roleName, namespace, effectiveTtl, lib)
  }

  /** The rest of `createSecret` once the account's one secret is known:
      bind the role, check the duration and build the response. */
  function IssueWithSecret(c: Cluster, sa: ServiceAccountDetails, secret: ServiceAccountSecret, config: PluginConfig,
                           roleName: string, namespace: string, effectiveTtl: GoInt, lib: Library): Issued
  {
    var bound := CreateRoleBindingStep(c, namespace, sa.name, roleName);
    if bound.result.Failure? then
      Issued(DeleteServiceAccountStep(bound.cluster, sa.namespace, sa.name).cluster,
             Failure(Remote(bound.result.error)))
    else if !lib.durationParses(effectiveTtl) then
      Issued(bound.cluster, Failure(InvalidDuration(effectiveTtl)))
    else
      Issued(bound.cluster, Success(SecretResponse(
        SecretData(secret.caCert, secret.namespace, secret.token, sa.name, bound.result.value.name,
                   GenerateKubeConfig(config, secret.caCert, secret.token, sa.name, namespace, lib.base64Encode)),
        Lease(effectiveTtl, effectiveTtl, false))))
  }

  /** What `revokeSecret` does, given the loaded configuration and the
      cluster it starts from. */
  function Revoke(c: Cluster, loaded: Result<Option<PluginConfig>, Error>, d: RevokeRequest): (v: Revoked)
    requires loaded != Success(None)
    ensures loaded.Failure? ==> v.cluster == c
    ensures c.log <= v.cluster.log && |v.cluster.log| <= |c.log| + 2
    ensures forall j :: |c.log| <= j < |v.cluster.log| ==> v.cluster.log[j].IsDelete()
    ensures v.cluster.accounts.Keys <= c.accounts.Keys && v.cluster.bindings.Keys <= c.bindings.Keys
    ensures v.result.Success? ==> v.result.value.serviceAccountName == d.serviceAccountName
  {
    if loaded.Failure? then Revoked(c, Failure(loaded.error))
    else
      var unbound := DeleteRoleBindingStep(c, d.namespace, d.roleBindingName);
      if unbound.result.Failure? then Revoked(unbound.cluster, Failure(Remote(unbound.result.error)))
      else
        var deleted := DeleteServiceAccountStep(unbound.cluster, d.namespace, d.serviceAccountName);
        if deleted.result.Failure? then Revoked(deleted.cluster, Failure(Remote(deleted.result.error)))
        else Revoked(deleted.cluster, Success(RevokeResponse(d.serviceAccountName)))
  }

  /** The backend: the Kubernetes client it was built with, and the foreign
      routines. */
  class Backend {
    const cluster: FakeCluster
    const lib: Library

    constructor (cluster: FakeCluster, lib: Library)
      ensures this.cluster == cluster && this.lib == lib
    {
      this.cluster := cluster;
      this.lib := lib;
    }

    /** `createSecret`. */
    method CreateSecret(s: Storage, saType: string, namespace: string, ttl: GoInt)
      returns (r: Result<SecretResponse, Error>)
      requires cluster.Valid()
      requires LoadPluginConfig(s) == Success(None) ==> !IsServiceAccountType(saType)
      modifies cluster
      ensures cluster.Valid()
      ensures Issued(cluster.State(), r) == Issue(old(cluster.State()), LoadPluginConfig(s), saType, namespace, ttl, lib)
    {
      ghost var c0 := cluster.State();
      var pluginConfig := LoadPluginConfig(s);
      if pluginConfig.Failure? {
        return Failure(pluginConfig.error);
      }
      var roleName := GetClusterRoleName(pluginConfig.value, saType);
      if roleName.Failure? {
        return Failure(roleName.error);
      }
      var config := pluginConfig.value.value;

      var effectiveTtl := ttl;
      if effectiveTtl <= 0 {
        effectiveTtl := config.defaultTtl;
      }
      if effectiveTtl > config.maxTtl {
        effectiveTtl := config.maxTtl;
      }
      assert effectiveTtl == ClampTtl(ttl, config.defaultTtl, config.maxTtl);

      var sa := cluster.CreateServiceAccount(namespace);
      ghost var created := CreateServiceAccountStep(c0, namespace);
      assert sa == created.result && cluster.State() == created.cluster;
      if sa.Failure? {
        return Failure(Remote(sa.error));
      }
      assert Issue(c0, pluginConfig, saType, namespace, ttl, lib)
          == IssueWithAccount(created.cluster, sa.value, config, roleName.value, namespace, effectiveTtl, lib);

      var secrets := cluster.GetServiceAccountSecret(sa.value);
      ghost var fetched := GetServiceAccountSecretStep(created.cluster, sa.value);
      assert secrets == fetched.result && cluster.State() == fetched.cluster;
      if secrets.Failure? {
        var _ := cluster.DeleteServiceAccount(sa.value.namespace, sa.value.name);
        return Failure(Remote(secrets.error));
      }
      if |secrets.value| != 1 {
        var _ := cluster.DeleteServiceAccount(sa.value.namespace, sa.value.name);
        return Failure(UnexpectedSecretCount(|secrets.value|));
      }
      assert IssueWithAccount(created.cluster, sa.value, config, roleName.value, namespace, effectiveTtl, lib)
          == IssueWithSecret(fetched.cluster, sa.value, secrets.value[0], config, roleName.value, namespace, effectiveTtl, lib);

      var rb := cluster.CreateRoleBinding(namespace, sa.value.name, roleName.value);
      ghost var bound := CreateRoleBindingStep(fetched.cluster, namespace, sa.value.name, roleName.value);
      assert rb == bound.result && cluster.State() == bound.cluster;
      if rb.Failure? {
        var _ := cluster.DeleteServiceAccount(sa.value.namespace, sa.value.name);
        return Failure(Remote(rb.error));
      }

      if !lib.durationParses(effectiveTtl) {
        return Failure(InvalidDuration(effectiveTtl));
      }
      var secret := secrets.value[0];
      var data := SecretData(secret.caCert, secret.namespace, secret.token, sa.value.name, rb.value.name,
                             GenerateKubeConfig(config, secret.caCert, secret.token, sa.value.name, namespace, lib.base64Encode));
      r := Success(SecretResponse(data, Lease(effectiveTtl, effectiveTtl, false)));
    }

    /** `revokeSecret`. */
    method RevokeSecret(s: Storage, d: RevokeRequest) returns (r: Result<RevokeResponse, Error>)
      requires cluster.Valid()
      requires LoadPluginConfig(s) != Success(None)
      modifies cluster
      ensures cluster.Valid()
      ensures Revoked(cluster.State(), r) == Revoke(old(cluster.State()), LoadPluginConfig(s), d)
    {
      var pluginConfig := LoadPluginConfig(s);
      if pluginConfig.Failure? {
        return Failure(pluginConfig.error);
      }
      var err := cluster.DeleteRoleBinding(d.namespace, d.roleBindingName);
      if err.Failure? {
        return Failure(Remote(err.error));
      }
      err := cluster.DeleteServiceAccount(d.namespace, d.serviceAccountName);
      if err.Failure? {
        return Failure(Remote(err.error));
      }
      r := Success(RevokeResponse(d.serviceAccountName));
    }
  }

  // What issuance promises, step by step.

  /** A failed load returns its error before any Kubernetes call. */
  lemma IssueLoadFailure(c: Cluster, loaded: Result<Option<PluginConfig>, Error>, saType: string, namespace: string,
                         ttl: GoInt, lib: Library)
    requires loaded.Failure?
    ensures Issue(c, loaded, saType, namespace, ttl, lib) == Issued(c, Failure(loaded.error))
  {
  }

  /** An unknown type is rejected before any Kubernetes call. */
  lemma IssueRejectsUnknownType(c: Cluster, loaded: Result<Option<PluginConfig>, Error>, saType: string,
                                namespace: string, ttl: GoInt, lib: Library)
    requires loaded.Success? && !IsServiceAccountType(saType)
    ensures Issue(c, loaded, saType, namespace, ttl, lib) == Issued(c, Failure(InvalidServiceAccountType(saType)))
  {
  }

  /** When the account cannot be created, its error is returned and that
      call is the only one made. */
  lemma IssueCreateAccountFailure(c: Cluster, loaded: Result<Option<PluginConfig>, Error>, saType: string,
                                  namespace: string, ttl: GoInt, lib: Library)
    requires Resolvable(loaded, saType)
    requires CreateServiceAccountStep(c, namespace).result.Failure?
    ensures var i := Issue(c, loaded, saType, namespace, ttl, lib);
      && i.result == Failure(Remote(CreateServiceAccountStep(c, namespace).result.error))
      && i.cluster == Logged(c, Call.CreateServiceAccount(namespace))
  {
  }

  /** When the secrets cannot be fetched, or there is not exactly one, the
      account is deleted once, no binding is created, and an error is
      returned. */
  lemma IssueSecretFailure(c: Cluster, loaded: Result<Option<PluginConfig>, Error>, saType: string,
                           namespace: string, ttl: GoInt, lib: Library)
    requires Resolvable(loaded, saType)
    requires var created := CreateServiceAccountStep(c, namespace);
      && created.result.Success?
      && var fetched := GetServiceAccountSecretStep(created.cluster, created.result.value);
         fetched.result.Failure? || |fetched.result.value| != 1
    ensures var created := CreateServiceAccountStep(c, namespace);
      var sa := created.result.value;
      var fetched := GetServiceAccountSecretStep(created.cluster, sa);
      var i := Issue(c, loaded, saType, namespace, ttl, lib);
      && i.cluster.log == c.log + [Call.CreateServiceAccount(namespace),
                                   Call.GetServiceAccountSecret(sa.namespace, sa.name),
                                   Call.DeleteServiceAccount(sa.namespace, sa.name)]
      && i.cluster.bindings == c.bindings
      && i.result.Failure?
      && (fetched.result.Failure? ==> i.result.error == Remote(fetched.result.error))
      && (fetched.result.Success? ==> i.result.error == UnexpectedSecretCount(|fetched.result.value|))
  {
  }

  /** When the binding cannot be created, the account is deleted once and the
      binding's error is returned, whatever the delete returned. */
  lemma IssueBindingFailure(c: Cluster, loaded: Result<Option<PluginConfig>, Error>, saType: string,
                            namespace: string, ttl: GoInt, lib: Library)
    requires Resolvable(loaded, saType)
    requires var created := CreateServiceAccountStep(c, namespace);
      && created.result.Success?
      && var fetched := GetServiceAccountSecretStep(created.cluster, created.result.value);
      && fetched.result.Success? && |fetched.result.value| == 1
      && var roleName := GetClusterRoleName(loaded.value, saType).value;
         CreateRoleBindingStep(fetched.cluster, namespace, created.result.value.name, roleName).result.Failure?
    ensures var created := CreateServiceAccountStep(c, namespace);
      var sa := created.result.value;
      var fetched := GetServiceAccountSecretStep(created.cluster, sa);
      var roleName := GetClusterRoleName(loaded.value, saType).value;
      var bound := CreateRoleBindingStep(fetched.cluster, namespace, sa.name, roleName);
      var i := Issue(c, loaded, saType, namespace, ttl, lib);
      && i.cluster.log == c.log + [Call.CreateServiceAccount(namespace),
                                   Call.GetServiceAccountSecret(sa.namespace, sa.name),
                                   Call.CreateRoleBinding(namespace, sa.name, roleName),
                                   Call.DeleteServiceAccount(sa.namespace, sa.name)]
      && i.result == Failure(Remote(bound.result.error))
  {
  }

  /** When the effective TTL does not parse as a duration, an error is
      returned and nothing is deleted: the account and its binding remain. */
  lemma IssueDurationFailure(c: Cluster, loaded: Result<Option<PluginConfig>, Error>, saType: string,
                             namespace: string, ttl: GoInt, lib: Library)
    requires Resolvable(loaded, saType)
    requires var created := CreateServiceAccountStep(c, namespace);
      && created.result.Success?
      && var fetched := GetServiceAccountSecretStep(created.cluster, created.result.value);
      && fetched.result.Success? && |fetched.result.value| == 1
      && var roleName := GetClusterRoleName(loaded.value, saType).value;
      && CreateRoleBindingStep(fetched.cluster, namespace, created.result.value.name, roleName).result.Success?
      && var config := loaded.value.value;
         !lib.durationParses(ClampTtl(ttl, config.defaultTtl, config.maxTtl))
    ensures var config := loaded.value.value;
      var created := CreateServiceAccountStep(c, namespace);
      var sa := created.result.value;
      var roleName := GetClusterRoleName(loaded.value, saType).value;
      var i := Issue(c, loaded, saType, namespace, ttl, lib);
      && i.result == Failure(InvalidDuration(ClampTtl(ttl, config.defaultTtl, config.maxTtl)))
      && i.cluster.log == c.log + [Call.CreateServiceAccount(namespace),
                                   Call.GetServiceAccountSecret(sa.namespace, sa.name),
                                   Call.CreateRoleBinding(namespace, sa.name, roleName)]
      && ObjectRef(sa.namespace, sa.name) in i.cluster.accounts
      && var fetched := GetServiceAccountSecretStep(created.cluster, sa);
         var binding := ObjectRef(namespace, CreateRoleBindingStep(fetched.cluster, namespace, sa.name, roleName).result.value.name);
         binding in i.cluster.bindings && i.cluster.bindings[binding] == Binding(sa.name, roleName)
  {
  }

  lemma AppendThree(log: seq<Call>, a: Call, b: Call, c: Call)
    ensures log + [a] + [b] + [c] == log + [a, b, c]
  {
  }

  /** A successful issuance is the three successful steps and the response
      built from them. */
  lemma IssueSuccessSteps(c: Cluster, loaded: Result<Option<PluginConfig>, Error>, saType: string,
                          namespace: string, ttl: GoInt, lib: Library)
    requires Resolvable(loaded, saType)
    requires Issue(c, loaded, saType, namespace, ttl, lib).result.Success?
    ensures var config := loaded.value.value;
      var roleName := GetClusterRoleName(loaded.value, saType).value;
      var effectiveTtl := ClampTtl(ttl, config.defaultTtl, config.maxTtl);
      var created := CreateServiceAccountStep(c, namespace);
      && created.result.Success?
      && var sa := created.result.value;
         var fetched := GetServiceAccountSecretStep(created.cluster, sa);
      && fetched.result.Success? && |fetched.result.value| == 1
      && var secret := fetched.result.value[0];
         var bound := CreateRoleBindingStep(fetched.cluster, namespace, sa.name, roleName);
      && bound.result.Success?
      && ObjectRef(namespace, sa.name) in created.cluster.accounts
      && created.cluster.accounts[ObjectRef(namespace, sa.name)] == [secret]
      && Issue(c, loaded, saType, namespace, ttl, lib) == Issued(bound.cluster, Success(SecretResponse(
           SecretData(secret.caCert, secret.namespace, secret.token, sa.name, bound.result.value.name,
                      GenerateKubeConfig(config, secret.caCert, secret.token, sa.name, namespace, lib.base64Encode)),
           Lease(effectiveTtl, effectiveTtl, false))))
  {
    var config := loaded.value.value;
    var roleName := GetClusterRoleName(loaded.value, saType).value;
    var created := CreateServiceAccountStep(c, namespace);
    assert created.result.Success?;
    var sa := created.result.value;
    var fetched := GetServiceAccountSecretStep(created.cluster, sa);
    assert fetched.result.Success? && |fetched.result.value| == 1;
    assert fetched.result.value == [fetched.result.value[0]];
  }

  /** A successful issuance makes three calls, creates a fresh account whose
      one secret the response carries, binds the configured role to it, and
      returns a non-renewable lease of the effective TTL. */
  lemma IssueSuccess(c: Cluster, loaded: Result<Option<PluginConfig>, Error>, saType: string,
                     namespace: string, ttl: GoInt, lib: Library)
    requires Fresh(c)
    requires Resolvable(loaded, saType)
    requires Issue(c, loaded, saType, namespace, ttl, lib).result.Success?
    ensures var config := loaded.value.value;
      var roleName := GetClusterRoleName(loaded.value, saType).value;
      var effectiveTtl := ClampTtl(ttl, config.defaultTtl, config.maxTtl);
      var i := Issue(c, loaded, saType, namespace, ttl, lib);
      var resp := i.result.value;
      var account := ObjectRef(namespace, resp.data.serviceAccountName);
      var binding := ObjectRef(namespace, resp.data.roleBindingName);
      && i.cluster.log == c.log + [Call.CreateServiceAccount(namespace),
                                   Call.GetServiceAccountSecret(namespace, resp.data.serviceAccountName),
                                   Call.CreateRoleBinding(namespace, resp.data.serviceAccountName, roleName)]
      && account !in c.accounts && binding !in c.bindings
      && account in i.cluster.accounts
      && i.cluster.accounts[account]
         == [ServiceAccountSecret(resp.data.caCert, resp.data.namespace, resp.data.serviceAccountToken)]
      && binding in i.cluster.bindings
      && i.cluster.bindings[binding] == Binding(resp.data.serviceAccountName, roleName)
      && resp.lease == Lease(effectiveTtl, effectiveTtl, false)
      && resp.data.kubeConfig == GenerateKubeConfig(config, resp.data.caCert, resp.data.serviceAccountToken,
                                                    resp.data.serviceAccountName, namespace, lib.base64Encode)
  {
    IssueSuccessSteps(c, loaded, saType, namespace, ttl, lib);
    CreateServiceAccountKeepsFresh(c, namespace);
    var created := CreateServiceAccountStep(c, namespace);
    var fetched := GetServiceAccountSecretStep(created.cluster, created.result.value);
    assert Fresh(fetched.cluster);
    var roleName := GetClusterRoleName(loaded.value, saType).value;
    var bound := CreateRoleBindingStep(fetched.cluster, namespace, created.result.value.name, roleName);
    var i := Issue(c, loaded, saType, namespace, ttl, lib);
    assert i.cluster == bound.cluster;
    var sa := created.result.value;
    assert sa.namespace == namespace;
    var calls := [Call.CreateServiceAccount(namespace), Call.GetServiceAccountSecret(namespace, sa.name),
                  Call.CreateRoleBinding(namespace, sa.name, roleName)];
    assert bound.cluster.log == c.log + [calls[0]] + [calls[1]] + [calls[2]];
    AppendThree(c.log, calls[0], calls[1], calls[2]);
  }


  /** Compensation leaves no trace: a failed issuance that does not fail on
      the duration, and whose compensating delete is not refused, leaves the
      cluster's accounts and bindings as they were. */
  lemma IssueFailureCleansUp(c: Cluster, loaded: Result<Option<PluginConfig>, Error>,
                               saType: string, namespace: string, ttl: GoInt, lib: Library)
    requires Fresh(c)
    requires loaded == Success(None) ==> !IsServiceAccountType(saType)
    requires DeleteServiceAccountOp !in c.faults
    requires Issue(c, loaded, saType, namespace, ttl, lib).result.Failure?
    requires !Issue(c, loaded, saType, namespace, ttl, lib).result.error.InvalidDuration?
    ensures Issue(c, loaded, saType, namespace, ttl, lib).cluster.accounts == c.accounts
    ensures Issue(c, loaded, saType, namespace, ttl, lib).cluster.bindings == c.bindings
  {
    if Resolvable(loaded, saType) && CreateServiceAccountOp !in c.faults {
      var ref := ObjectRef(namespace, ServiceAccountName(c.serial));
      assert ref !in c.accounts;
      assert (c.accounts[ref := TokenSecrets(c.tokens, namespace)]) - {ref} == c.accounts;
    }
  }

  // What revocation promises.

  /** A failed load returns its error before any Kubernetes call. */
  lemma RevokeLoadFailure(c: Cluster, loaded: Result<Option<PluginConfig>, Error>, d: RevokeRequest)
    requires loaded.Failure?
    ensures Revoke(c, loaded, d) == Revoked(c, Failure(loaded.error))
  {
  }

  /** Revocation deletes the binding, then the account, and nothing else; a
      failed binding delete is returned without touching the account. */
  lemma RevokeOrder(c: Cluster, loaded: Result<Option<PluginConfig>, Error>, d: RevokeRequest)
    requires loaded.Success? && loaded.value.Some?
    ensures var unbound := DeleteRoleBindingStep(c, d.namespace, d.roleBindingName);
      var v := Revoke(c, loaded, d);
      && (unbound.result.Failure? ==>
            && v.cluster == Logged(c, Call.DeleteRoleBinding(d.namespace, d.roleBindingName))
            && v.result == Failure(Remote(unbound.result.error)))
      && (unbound.result.Success? ==>
            && v.cluster.log == c.log + [Call.DeleteRoleBinding(d.namespace, d.roleBindingName),
                                         Call.DeleteServiceAccount(d.namespace, d.serviceAccountName)]
            && (v.result.Failure? ==> v.result.error == Remote(
                 DeleteServiceAccountStep(unbound.cluster, d.namespace, d.serviceAccountName).result.error))
            && (v.result.Success? ==> v.result.value == RevokeResponse(d.serviceAccountName)))
  {
  }

  /** Issuing and then revoking what was issued leaves the cluster's accounts
      and bindings as they were, with exactly the two deletes logged. */
  lemma IssueThenRevoke(c: Cluster, loaded: Result<Option<PluginConfig>, Error>,
                          saType: string, namespace: string, ttl: GoInt, lib: Library)
    requires Fresh(c)
    requires Resolvable(loaded, saType)
    requires DeleteRoleBindingOp !in c.faults && DeleteServiceAccountOp !in c.faults
    requires Issue(c, loaded, saType, namespace, ttl, lib).result.Success?
    ensures var i := Issue(c, loaded, saType, namespace, ttl, lib);
      var data := i.result.value.data;
      var v := Revoke(i.cluster, loaded, RevokeRequest(data.namespace, data.serviceAccountName, data.roleBindingName));
      && v.result == Success(RevokeResponse(data.serviceAccountName))
      && v.cluster.accounts == c.accounts
      && v.cluster.bindings == c.bindings
      && v.cluster.log == i.cluster.log + [Call.DeleteRoleBinding(namespace, data.roleBindingName),
                                           Call.DeleteServiceAccount(namespace, data.serviceAccountName)]
  {
    IssueSuccess(c, loaded, saType, namespace, ttl, lib);
    var i := Issue(c, loaded, saType, namespace, ttl, lib);
    var data := i.result.value.data;
    var account := ObjectRef(namespace, data.serviceAccountName);
    var binding := ObjectRef(namespace, data.roleBindingName);
    assert i.cluster.accounts == c.accounts[account := i.cluster.accounts[account]];
    assert i.cluster.bindings == c.bindings[binding := i.cluster.bindings[binding]];
    assert data.namespace == namespace;
    assert (c.accounts[account := i.cluster.accounts[account]]) - {account} == c.accounts;
    assert (c.bindings[binding := i.cluster.bindings[binding]]) - {binding} == c.bindings;
  }

  /** The configuration and the empty cluster of the viewer scenario. */
  function ViewerConfig(): PluginConfig {
    PluginConfig(600, "admin-role", "edit-role", "view-role", "jwt", "ca", "https://k8s", 300, "https://k8s")
  }

  function EmptyCluster(): Cluster {
    Cluster(map[], map[], 0, [], {}, [TokenData("ca-data", "token-1")])
  }

  /** The cluster once the viewer credential is issued. */
  function ViewerCluster(): Cluster {
    Cluster(map[ObjectRef("team-a", "vault-sa-0") := [ServiceAccountSecret("ca-data", "team-a", "token-1")]],
            map[ObjectRef("team-a", "vault-rb-1") := Binding("vault-sa-0", "view-role")],
            2,
            [Call.CreateServiceAccount("team-a"), Call.GetServiceAccountSecret("team-a", "vault-sa-0"),
             Call.CreateRoleBinding("team-a", "vault-sa-0", "view-role")],
            {}, [TokenData("ca-data", "token-1")])
  }

  /** Issuing the viewer credential of the scenario: account "vault-sa-0",
      then binding "vault-rb-1", and a 300-second lease. */
  lemma ViewerIssue(lib: Library)
    requires lib.durationParses(300)
    ensures Issue(EmptyCluster(), Success(Some(ViewerConfig())), "viewer", "team-a", 0, lib)
      == Issued(
           ViewerCluster(),
           Success(SecretResponse(
             SecretData("ca-data", "team-a", "token-1", "vault-sa-0", "vault-rb-1",
                        GenerateKubeConfig(ViewerConfig(), "ca-data", "token-1", "vault-sa-0", "team-a", lib.base64Encode)),
             Lease(300, 300, false))))
  {
    assert ServiceAccountName(0) == "vault-sa-0" by { assert Decimal(0) == "0"; }
    assert RoleBindingName(1) == "vault-rb-1" by { assert Decimal(1) == "1"; }
    var tokens := [TokenData("ca-data", "token-1")];
    var secrets := [ServiceAccountSecret("ca-data", "team-a", "token-1")];
    assert TokenSecrets(tokens, "team-a") == secrets;
    var created := CreateServiceAccountStep(EmptyCluster(), "team-a");
    assert created.result == Success(ServiceAccountDetails("team-a", "0", "vault-sa-0"));
    assert created.cluster == Cluster(map[ObjectRef("team-a", "vault-sa-0") := secrets], map[], 1,
                                      [Call.CreateServiceAccount("team-a")], {}, tokens);
    var fetched := GetServiceAccountSecretStep(created.cluster, created.result.value);
    assert fetched.result == Success(secrets);
    var bound := CreateRoleBindingStep(fetched.cluster, "team-a", "vault-sa-0", "view-role");
    assert bound.result == Success(RoleBindingDetails("team-a", "1", "vault-rb-1"));
    assert bound.cluster == ViewerCluster();
    assert ClampTtl(0, 300, 600) == 300;
  }

  /** Revoking the viewer credential of the scenario deletes binding
      "vault-rb-1", then account "vault-sa-0", and leaves the cluster with no
      account and no binding. */
  lemma ViewerRevoke()
    ensures Revoke(ViewerCluster(), Success(Some(ViewerConfig())), RevokeRequest("team-a", "vault-sa-0", "vault-rb-1"))
      == Revoked(ViewerCluster().(accounts := map[], bindings := map[],
                                  log := ViewerCluster().log + [Call.DeleteRoleBinding("team-a", "vault-rb-1"),
                                                                Call.DeleteServiceAccount("team-a", "vault-sa-0")]),
                 Success(RevokeResponse("vault-sa-0")))
  {
    var c := ViewerCluster();
    assert c.accounts - {ObjectRef("team-a", "vault-sa-0")} == map[];
    assert c.bindings - {ObjectRef("team-a", "vault-rb-1")} == map[];
  }
}
