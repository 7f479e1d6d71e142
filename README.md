# Kubernetes service-account secrets engine for Vault: a verified model

This project models the core of a Vault secrets engine. The engine issues short-lived Kubernetes
service accounts and tears them down again at revocation. It covers three parts:

- **Issuance and revocation** (`create.dfy`, module `Create`). `createSecret` does these steps in order:
  - it loads the configuration and resolves the service-account type (admin, editor or viewer) to a role;
  - it clamps the TTL;
  - it creates a service account and fetches its token secrets, requiring exactly one;
  - it binds the role to the account and returns the credential with a non-renewable lease.

  If a step after the account's creation fails, it deletes the account. `revokeSecret` deletes the role
  binding, then the account, and stops at the first failure.
- **The read path** (`read_sa_path.dfy`, module `ReadSaPath`). It lower-cases the requested type,
  checks it against the allow-list and hands the request to `createSecret`.
- **The configuration store** (`configure_path.dfy`, module `ConfigurePath`). The write handler checks
  `base_url`, then replaces the one record stored under the key `config`. The read handler and
  `loadPluginConfig` return that record, or nothing.

The model talks to Kubernetes through a fake cluster (`kubernetes.dfy`, module `Kubernetes`). It has
one method per client call the core makes. The fake holds service accounts, their token secrets, role
bindings and a log of every call. A test chooses which calls fail and which token data a new account
receives. Each fake method is proved equal to a pure step function on a `Cluster` value.
`Backend.CreateSecret` and `Backend.RevokeSecret` are imperative methods that call the fake. They are
proved equal to the pure functions `Issue` and `Revoke` of the old cluster state. The lemmas about those
functions state:

- the order of the calls;
- when the compensating delete happens;
- that a rejected request makes no call;
- that issuing and then revoking leaves the cluster's accounts and bindings as they were.

Vault's storage is a class holding a map of JSON objects (`logical.dfy`). The foreign routines stay
uninterpreted, as fields of a `Library` value (`common.dfy`): `url.Parse`, `time.ParseDuration` of
`"<n>s"`, and standard base64 (section 4 of RFC 4648). `encoding/json` is modelled for the flat record
only: tagged and untagged field names, zero values for absent or null fields, and failure on a type
mismatch.

Behaviour of the code that the model keeps:

- Issuance never creates or checks the namespace.
- It waits one second, once, before fetching the token secret (pkg/create.go:79).
- Zero secrets and several secrets are treated the same way: both delete the account and fail (pkg/create.go:88-91).
- The result of the compensating delete is discarded (pkg/create.go:84, 89, 97).
- The response carries no role name (pkg/create.go:108-115).
- The write handler validates only `base_url` (pkg/configure_path.go:98-101).
- A failure to parse the duration, after the account and binding exist, deletes nothing
  (pkg/create.go:103-106). The lemma `IssueDurationFailure` states this leak.

`PluginConfig` (pkg/configure_path.go:22-30) has no `DefaulTTL` or `Host` field, yet create.go reads
both. The model's record adds them as `defaultTtl` and `host`, encoded under their Go field names. The
write handler never sets them, so after a write, issuance sees a default TTL of 0 and an empty host.

## Model

| member | source | states |
|---|---|---|
| `Kubernetes.FakeCluster.constructor` | pkg/kubernetes_interface.go:7-20 | an empty cluster with an empty call log, and the chosen faults and token data |
| `Kubernetes.FakeCluster.CreateServiceAccount` | pkg/kubernetes_service.go:31-59 | logs the call. On an injected fault it returns an error and creates nothing. Otherwise it creates an account named from the `vault-sa-` prefix in the requested namespace, with one secret per token, and returns that namespace and name |
| `Kubernetes.FakeCluster.GetServiceAccountSecret` | pkg/kubernetes_service.go:61-91 | logs the call and returns the account's secrets. A missing account gives none, because the account read's error is ignored |
| `Kubernetes.FakeCluster.DeleteServiceAccount` | pkg/kubernetes_service.go:93-103 | logs the call. It removes exactly that account, or fails: on an injected fault, or with NotFound when the account is absent |
| `Kubernetes.FakeCluster.CreateRoleBinding` | pkg/kubernetes_service.go:105-151 | logs the call. It binds the role to the named account under a new `vault-rb-` name in the namespace, or fails with nothing created |
| `Kubernetes.FakeCluster.DeleteRoleBinding` | pkg/kubernetes_service.go:153-163 | logs the call. It removes exactly that binding, or fails: on an injected fault, or with NotFound |
| `Kubernetes.CreateServiceAccountStep` | pkg/kubernetes_service.go:31-59 | logs the call and leaves the bindings alone. It fails exactly on an injected fault, and then leaves the accounts alone. Otherwise it adds one account in the namespace, named from the `vault-sa-` prefix, holding one secret per token. On a fresh cluster that name was unused |
| `Kubernetes.GetServiceAccountSecretStep` | pkg/kubernetes_service.go:61-91 | changes nothing but the log. It fails exactly on an injected fault. Otherwise it returns the account's secrets, or none for a missing account |
| `Kubernetes.DeleteServiceAccountStep` | pkg/kubernetes_service.go:93-103 | logs the call and leaves the bindings alone. It succeeds exactly when no fault is injected and the account exists, and then removes that account only. Otherwise nothing else changes, and a missing account is NotFound |
| `Kubernetes.CreateRoleBindingStep` | pkg/kubernetes_service.go:105-151 | logs the call and leaves the accounts alone. It fails exactly on an injected fault, and then leaves the bindings alone. Otherwise it adds one binding of the role to the account, named from the `vault-rb-` prefix. On a fresh cluster that name was unused |
| `Kubernetes.DeleteRoleBindingStep` | pkg/kubernetes_service.go:153-163 | logs the call and leaves the accounts alone. It succeeds exactly when no fault is injected and the binding exists, and then removes that binding only. Otherwise nothing else changes, and a missing binding is NotFound |
| `Kubernetes.TokenSecrets` | pkg/kubernetes_service.go:69-88 | one secret per token, each carrying the account's namespace with that token's CA cert and token |
| `Kubernetes.DecimalInjective` | pkg/kubernetes_service.go:39 | distinct serial numbers give distinct name suffixes |
| `Kubernetes.GeneratedNameInjective` | pkg/kubernetes_service.go:21-23 | names generated from one prefix are equal only for equal serials |
| `Kubernetes.CreateServiceAccountKeepsFresh` | pkg/kubernetes_service.go:36-43 | creating an account keeps every name generated later unused in every namespace |
| `Kubernetes.CreateRoleBindingKeepsFresh` | pkg/kubernetes_service.go:120-139 | creating a binding keeps every name generated later unused in every namespace |
| `Logical.Storage.Get` | pkg/configure_path.go:147-153 | fails exactly when storage fails. It returns an entry exactly when the key is stored, and then the stored entry |
| `Logical.Storage.Put` | pkg/configure_path.go:117-119 | on failure it reports a storage error and changes nothing. On success it replaces the key's entry, and nothing else |
| `ConfigurePath.EncodeConfig` | pkg/configure_path.go:113-116 | the JSON form of the record decodes back to the same record |
| `ConfigurePath.DecodeInt` | pkg/configure_path.go:154-157 | an absent or null int field decodes to 0, and an in-range number to itself. An out-of-range number, or any other value, is a decode error |
| `ConfigurePath.DecodeString` | pkg/configure_path.go:154-157 | an absent or null string field decodes to "", and a string to itself. Any other value is a decode error |
| `ConfigurePath.DecodeConfig` | pkg/configure_path.go:154-157 | succeeds exactly when all nine fields decode, and then each field is the decoded value of its key. Any failure is a malformed-configuration error |
| `ConfigurePath.LoadPluginConfig` | pkg/configure_path.go:146-159 | a storage failure is returned as an error. Nothing stored gives no record and no error. Otherwise it gives the decoded record, or the decode error |
| `ConfigurePath.ConfigFromRequest` | pkg/configure_path.go:90-112 | `max_ttl` is 1800 when absent and the supplied value otherwise. The default TTL and host stay at Go's zero values |
| `ConfigurePath.HandleConfigRead` | pkg/configure_path.go:123-143 | no response and no error exactly when nothing is stored. Load errors are returned unchanged. Otherwise it returns the seven stored fields |
| `ConfigurePath.WriteThenRead` | pkg/configure_path.go:104-159 | a record built from a write decodes back unchanged, and reads back with exactly the written fields |
| `ConfigurePath.HandleConfigWrite` | pkg/configure_path.go:89-121 | an unparsable `base_url` gives an error and leaves storage unchanged. A put failure gives an error and leaves storage unchanged. Otherwise only the `config` entry is replaced, by the record of the supplied fields alone, and a later read returns exactly those fields |
| `ConfigurePath.ConfigCallbackFor` | pkg/configure_path.go:72-85 | create and update both run the write handler, read runs the read handler, and no other operation is served |
| `Create.GetClusterRoleName` | pkg/create.go:163-174 | succeeds exactly for "admin", "editor" and "viewer", giving the role configured for each. Any other type is an error naming it |
| `Create.ClampTtl` | pkg/create.go:62-68 | never above the maximum. It equals the request when that is positive and within the maximum, and is the maximum above it. A non-positive request gives the default, capped at the maximum |
| `Create.KubeConfigFor` | pkg/create.go:176-196 | the account name fills the cluster, context, user and current-context slots. A client resolving the current context reaches the configured host, trusts the base64 of the CA cert and uses the token in the namespace |
| `Create.Render` | pkg/create.go:177-195 | the YAML text opens with the cluster's CA data, after the `certificate-authority-data` key, and closes with the user's token |
| `Create.GenerateKubeConfig` | pkg/create.go:176-196 | the text is the rendering of a document whose current context is the account name, and through which a client reaches the configured host, trusts the base64 of the CA cert and uses the token in the namespace |
| `Create.Issue` | pkg/create.go:49-126 | the pure form of `createSecret`; its later stages are `IssueWithAccount` and `IssueWithSecret`. Unless the configuration loads and the type is known, it fails with no call. It only appends to the call log, at most four calls, and a success appends exactly three |
| `Create.Revoke` | pkg/create.go:128-160 | the pure form of `revokeSecret`. A load failure changes nothing. It appends at most two calls, all deletes. It never adds an account or a binding, and a success echoes the account name |
| `Create.Backend.CreateSecret` | pkg/create.go:49-126 | the new cluster state and the result are those of `Issue` on the old state and the loaded configuration, and the cluster stays fresh |
| `Create.Backend.RevokeSecret` | pkg/create.go:128-160 | the new cluster state and the result are those of `Revoke` on the old state and the loaded configuration |
| `Create.IssueLoadFailure` | pkg/create.go:51-55 | a configuration load error is returned before any Kubernetes call |
| `Create.IssueRejectsUnknownType` | pkg/create.go:57-60 | an unknown type is an error, returned before any Kubernetes call |
| `Create.IssueCreateAccountFailure` | pkg/create.go:71-76 | a failed account creation returns its error. It is the only call made, and nothing is deleted |
| `Create.IssueSecretFailure` | pkg/create.go:81-91 | a failed secret fetch, or a count other than one (zero included), deletes the created account exactly once. No binding is created, and an error is returned |
| `Create.IssueBindingFailure` | pkg/create.go:93-99 | a failed binding deletes the account exactly once and returns the binding's error, whatever the delete returned |
| `Create.IssueDurationFailure` | pkg/create.go:103-106 | a TTL that does not parse as a duration returns an error with no delete. Exactly three calls are logged. The account remains, and so does the binding of the role to it |
| `Create.IssueSuccessSteps` | pkg/create.go:71-125 | a successful issuance is the three successful steps, with the new account holding exactly one secret, and the response built from that secret, the two new names and the effective TTL |
| `Create.IssueSuccess` | pkg/create.go:103-125 | exactly three calls are made. The response names a newly created account and a newly created binding of the configured role to it, carries that account's one secret, and has TTL and max TTL equal to the effective TTL, not renewable |
| `Create.IssueFailureCleansUp` | pkg/create.go:81-99 | a failure other than the duration one, whose compensating delete is not refused, leaves accounts and bindings as they were |
| `Create.RevokeLoadFailure` | pkg/create.go:129-133 | a configuration load error is returned before any Kubernetes call |
| `Create.RevokeOrder` | pkg/create.go:137-159 | the binding delete comes strictly before the account delete, and no other call is made. A failed binding delete is returned without attempting the account delete |
| `Create.IssueThenRevoke` | pkg/create.go:108-153 | revoking what was issued succeeds with exactly two deletes, and leaves accounts and bindings as before the issuance |
| `Create.ViewerIssue` | pkg/create.go:62-125 | a viewer request for 0 s, with default 300 and maximum 600, on an empty cluster gives a 300 s lease for `vault-sa-0` bound to the viewer role by `vault-rb-1`. The cluster then holds exactly that account and that binding, after three logged calls |
| `Create.ViewerRevoke` | pkg/create.go:128-160 | revoking that credential deletes `vault-rb-1`, then `vault-sa-0`, and leaves no account and no binding |
| `ReadSaPath.AllowedSATypes` | pkg/read_sa_path.go:23-25 | three types, each already lower case and each resolved by `getClusterRoleName` |
| `ReadSaPath.ToLower` | pkg/read_sa_path.go:58 | keeps the length and lower-cases each character |
| `ReadSaPath.LowerCaseLetters` | pkg/read_sa_path.go:58 | exactly 'i', 'I' and U+0130 lower-case to 'i', and exactly 'k', 'K' and U+212A lower-case to 'k' |
| `ReadSaPath.FindAllowedType` | pkg/read_sa_path.go:59-65 | the scan finds the type exactly when it is in the allow-list |
| `ReadSaPath.RequestedTtl` | pkg/read_sa_path.go:41-45 | the supplied `ttl`, or 600 when none is supplied |
| `ReadSaPath.AcceptedResolves` | pkg/read_sa_path.go:23-25 | every accepted type resolves in `getClusterRoleName` without error |
| `ReadSaPath.AcceptedTypes` | pkg/read_sa_path.go:58-65 | a type is accepted exactly when its lower-case form is "admin", "editor" or "viewer" |
| `ReadSaPath.CaseVariantsAccepted` | pkg/read_sa_path.go:58-65 | "Viewer", "vİewer" (with U+0130), "ADMIN" and "ADMİN" are all accepted, and lower-case to "viewer" and "admin" |
| `ReadSaPath.HandleReadForRole` | pkg/read_sa_path.go:56-78 | missing field data, or a rejected type, gives an error and no Kubernetes call. The rejection names the lower-cased type and the allow-list. An accepted type is issued lower-cased, with the namespace and the TTL (or 600) passed through unchanged |

## Left out

- Logging and the `time.Sleep` calls (pkg/create.go:79, pkg/kubernetes_service.go:137): they only affect timing.
- The real Kubernetes client and its transport (client-go, TLS cert pool, bearer-token header) are replaced by the fake cluster.
  - The fake names objects with a decimal serial number where the API server appends a random suffix.
  - It does not record which configuration each call was authenticated with.
  - Namespaces, roles, `CreateRole`, `DeleteRole` and `CreateNamespaceIfNotExists` are not modelled, because the core never calls them.
- `url.Parse`, `time.ParseDuration` and base64 encoding are uninterpreted parameters. The model does not say which strings they accept or what they produce.
- JSON is modelled as structured values, not bytes. Syntax errors, case-insensitive key matching and fractional numbers are not represented.
- The error branch of `logical.StorageEntryJSON` (pkg/configure_path.go:113-116) is not modelled: marshalling a record of integers and strings cannot fail.
- The error response returned alongside the `base_url` error (pkg/configure_path.go:100) is not modelled; only the error is.
- Storage faults are two switches on the storage object (every get fails, every put fails). A failing put changes nothing.
- ToLower: lower-cases only the runes whose lower case is an ASCII letter: the ASCII capitals, U+0130 (to 'i') and U+212A (to 'k'). Every other rune is kept, where Go's `unicode.ToLower` would map it to another non-ASCII rune. So acceptance is decided as in Go. Only the lower-cased type echoed in the rejection error can differ, and only for a non-ASCII type.
- Create.Backend.CreateSecret: requires that an absent configuration comes with an unknown type. With a known type the source dereferences a nil configuration (pkg/create.go:57, pkg/configure_path.go:151-153).
- Create.Backend.RevokeSecret: requires a present configuration, because the source hands a nil configuration to the client.
- The Vault framework is not modelled: field schemas, path patterns, the `Required` flags (which are not enforced), and the host's lease bookkeeping.
  - Missing string fields read as "".
  - The revocation request is given the names from the issued response directly.
- The `kube_config` key of the response is declared outside the three modelled files; the model names that field `kubeConfig`.
- `pkg/backend.go`, `cmd/main.go` and `pkg/invalid_path.go` are wiring with nothing to verify, so they are not part of this model.
- The superseded versions (`pkg/configure.go`, `pkg/config_k8s_service_account.go`, `pkg/secret_k8s_service_account.go`, `pkg/read.go`, `pkg/path_k8s_service_account.go`) are not part of this model. They redefine the same functions with conflicting behaviour.
