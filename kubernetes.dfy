/** The Kubernetes client the orchestrator talks to, as an in-memory fake.

    The record shapes are those of pkg/kubernetes_interface.go. The fake keeps
    the cluster's service accounts (each with the token secrets the token
    controller attached to it), its role bindings and a log of every call made
    to it, so that call order and compensation can be stated. A test picks
    which calls fail (`faults`) and which token data the cluster attaches to a
    new service account (`tokens`).

    Each call is specified by a pure step function on a `Cluster` value; the
    methods of `FakeCluster` implement those steps by updating fields. */
module Kubernetes {
  import opened Common

  datatype ServiceAccountDetails = ServiceAccountDetails(namespace: string, uid: string, name: string)
  datatype ServiceAccountSecret = ServiceAccountSecret(caCert: string, namespace: string, token: string)
  datatype RoleBindingDetails = RoleBindingDetails(namespace: string, uid: string, name: string)

  /** A namespaced object: where it lives and its name. */
  datatype ObjectRef = ObjectRef(namespace: string, name: string)

  /** A role binding: the service account it names as subject, and the role. */
  datatype Binding = Binding(serviceAccountName: string, roleName: string)

  /** What the token controller puts into one secret of a new service account. */
  datatype TokenData = TokenData(caCert: string, token: string)

  /** The client operations the core uses. */
  datatype Op =
    | CreateServiceAccountOp
    | GetServiceAccountSecretOp
    | DeleteServiceAccountOp
    | CreateRoleBindingOp
    | DeleteRoleBindingOp

  /** One entry of the call log: an operation and its arguments. */
  datatype Call =
    | CreateServiceAccount(namespace: string)
    | GetServiceAccountSecret(namespace: string, serviceAccountName: string)
    | DeleteServiceAccount(namespace: string, serviceAccountName: string)
    | CreateRoleBinding(namespace: string, serviceAccountName: string, roleName: string)
    | DeleteRoleBinding(namespace: string, roleBindingName: string)
  {
    predicate IsDelete() {
      DeleteServiceAccount? || DeleteRoleBinding?
    }
  }

  /** Why a client call failed: an injected fault, or the object is absent. */
  datatype KubeError = Injected(op: Op) | NotFound(ref: ObjectRef)

  datatype Cluster = Cluster(
    accounts: map<ObjectRef, seq<ServiceAccountSecret>>,
    bindings: map<ObjectRef, Binding>,
    serial: nat,
    log: seq<Call>,
    faults: set<Op>,
    tokens: seq<TokenData>)

  /** The cluster after a call, and what the call returned. */
  datatype Reply<+T> = Reply(cluster: Cluster, result: Result<T, KubeError>)

  // Name generation. The API server completes a `GenerateName` prefix with a
  // unique suffix; the fake uses the decimal form of a serial number.

  const ServiceAccountNamePrefix: string := "vault-sa-"
  const RoleBindingNamePrefix: string := "vault-rb-"

  function DecimalDigit(d: nat): (c: char)
    requires d < 10
    ensures '0' <= c <= '9' && c as int - '0' as int == d
  {
    "0123456789"[d]
  }

  /** The decimal numeral of n, most significant digit first. */
  function Decimal(n: nat): (s: string)
    ensures 1 <= |s|
    ensures n < 10 <==> |s| == 1
    ensures s[|s| - 1] == DecimalDigit(n % 10)
  {
    if n < 10 then [DecimalDigit(n)] else Decimal(n / 10) + [DecimalDigit(n % 10)]
  }

  /** Distinct serial numbers give distinct numerals. */
  lemma {:induction false} DecimalInjective(a: nat, b: nat)
    requires Decimal(a) == Decimal(b)
    ensures a == b
  {
    if 10 <= a && 10 <= b {
      var sa, sb := Decimal(a), Decimal(b);
      assert sa[..|sa| - 1] == Decimal(a / 10);
      assert sb[..|sb| - 1] == Decimal(b / 10);
      DecimalInjective(a / 10, b / 10);
    }
  }

  /** The name the API server gives the object completing `prefix`. */
  function GeneratedName(prefix: string, serial: nat): string {
    prefix + Decimal(serial)
  }

  function ServiceAccountName(serial: nat): string {
    GeneratedName(ServiceAccountNamePrefix, serial)
  }

  function RoleBindingName(serial: nat): string {
    GeneratedName(RoleBindingNamePrefix, serial)
  }

  lemma GeneratedNameInjective(prefix: string, a: nat, b: nat)
    requires GeneratedName(prefix, a) == GeneratedName(prefix, b)
    ensures a == b
  {
    assert GeneratedName(prefix, a)[|prefix|..] == Decimal(a);
    assert GeneratedName(prefix, b)[|prefix|..] == Decimal(b);
    DecimalInjective(a, b);
  }

  /** No object carries a name the fake has yet to generate: every name it
      generates from now on is new in its namespace. */
  ghost predicate Fresh(c: Cluster) {
    && (forall ns: string, k: nat :: c.serial <= k ==> ObjectRef(ns, ServiceAccountName(k)) !in c.accounts)
    && (forall ns: string, k: nat :: c.serial <= k ==> ObjectRef(ns, RoleBindingName(k)) !in c.bindings)
  }

  /** The secrets of a new service account in `namespace`, one per token. */
  function TokenSecrets(tokens: seq<TokenData>, namespace: string): (s: seq<ServiceAccountSecret>)
    ensures |s| == |tokens|
    ensures forall i :: 0 <= i < |s| ==>
      s[i] == ServiceAccountSecret(tokens[i].caCert, namespace, tokens[i].token)
  {
    if tokens == [] then []
    else [ServiceAccountSecret(tokens[0].caCert, namespace, tokens[0].token)] + TokenSecrets(tokens[1..], namespace)
  }

  function Logged(c: Cluster, call: Call): Cluster {
    c.(log := c.log + [call])
  }

  // The five client calls, as steps on the cluster.

  /** Creates a service account named from the `vault-sa-` prefix, with one
      secret per token, or fails on an injected fault with nothing created. */
  function CreateServiceAccountStep(c: Cluster, namespace: string): (r: Reply<ServiceAccountDetails>)
    ensures r.cluster.log == c.log + [Call.CreateServiceAccount(namespace)]
    ensures r.cluster.faults == c.faults && r.cluster.tokens == c.tokens && r.cluster.bindings == c.bindings
    ensures r.result.Failure? <==> CreateServiceAccountOp in c.faults
    ensures r.result.Failure? ==> r.result.error == Injected(CreateServiceAccountOp) && r.cluster.accounts == c.accounts
    ensures r.result.Success? ==>
      && r.result.value.namespace == namespace
      && ServiceAccountNamePrefix <= r.result.value.name
      && r.cluster.accounts == c.accounts[ObjectRef(namespace, r.result.value.name) := TokenSecrets(c.tokens, namespace)]
      && (Fresh(c) ==> ObjectRef(namespace, r.result.value.name) !in c.accounts)
  {
    var c' := Logged(c, Call.CreateServiceAccount(namespace));
    if CreateServiceAccountOp in c.faults then Reply(c', Failure(Injected(CreateServiceAccountOp)))
    else
      var name := ServiceAccountName(c.serial);
      Reply(c'.(accounts := c.accounts[ObjectRef(namespace, name) := TokenSecrets(c.tokens, namespace)],
                serial := c.serial + 1),
            Success(ServiceAccountDetails(namespace, Decimal(c.serial), name)))
  }

  /** Reads the account and the secrets it references. The read of the
      account ignores its error (pkg/kubernetes_service.go:67), so a missing
      account yields no secrets rather than an error. */
  function GetServiceAccountSecretStep(c: Cluster, sa: ServiceAccountDetails): (r: Reply<seq<ServiceAccountSecret>>)
    ensures r.cluster == Logged(c, Call.GetServiceAccountSecret(sa.namespace, sa.name))
    ensures r.result.Failure? <==> GetServiceAccountSecretOp in c.faults
    ensures r.result.Failure? ==> r.result.error == Injected(GetServiceAccountSecretOp)
    ensures r.result.Success? && ObjectRef(sa.namespace, sa.name) in c.accounts ==>
      r.result.value == c.accounts[ObjectRef(sa.namespace, sa.name)]
    ensures r.result.Success? && ObjectRef(sa.namespace, sa.name) !in c.accounts ==> r.result.value == []
  {
    var c' := Logged(c, Call.GetServiceAccountSecret(sa.namespace, sa.name));
    var ref := ObjectRef(sa.namespace, sa.name);
    if GetServiceAccountSecretOp in c.faults then Reply(c', Failure(Injected(GetServiceAccountSecretOp)))
    else Reply(c', Success(if ref in c.accounts then c.accounts[ref] else []))
  }

  /** Removes exactly the named account, or fails and changes nothing but the log. */
  function DeleteServiceAccountStep(c: Cluster, namespace: string, name: string): (r: Reply<()>)
    ensures r.cluster.log == c.log + [Call.DeleteServiceAccount(namespace, name)]
    ensures r.cluster.bindings == c.bindings && r.cluster.serial == c.serial
    ensures r.cluster.faults == c.faults && r.cluster.tokens == c.tokens
    ensures r.result.Success? <==> DeleteServiceAccountOp !in c.faults && ObjectRef(namespace, name) in c.accounts
    ensures r.result.Success? ==> r.cluster.accounts == c.accounts - {ObjectRef(namespace, name)}
    ensures r.result.Failure? ==> r.cluster.accounts == c.accounts
    ensures r.result.Failure? && DeleteServiceAccountOp !in c.faults ==> r.result.error == NotFound(ObjectRef(namespace, name))
  {
    var c' := Logged(c, Call.DeleteServiceAccount(namespace, name));
    var ref := ObjectRef(namespace, name);
    if DeleteServiceAccountOp in c.faults then Reply(c', Failure(Injected(DeleteServiceAccountOp)))
    else if ref !in c.accounts then Reply(c', Failure(NotFound(ref)))
    else Reply(c'.(accounts := c.accounts - {ref}), Success(()))
  }

  /** Binds the role to the account under a name from the `vault-rb-`
      prefix, or fails on an injected fault with nothing created. */
  function CreateRoleBindingStep(c: Cluster, namespace: string, serviceAccountName: string, roleName: string)
    : (r: Reply<RoleBindingDetails>)
    ensures r.cluster.log == c.log + [Call.CreateRoleBinding(namespace, serviceAccountName, roleName)]
    ensures r.cluster.faults == c.faults && r.cluster.tokens == c.tokens && r.cluster.accounts == c.accounts
    ensures r.result.Failure? <==> CreateRoleBindingOp in c.faults
    ensures r.result.Failure? ==> r.result.error == Injected(CreateRoleBindingOp) && r.cluster.bindings == c.bindings
    ensures r.result.Success? ==>
      && r.result.value.namespace == namespace
      && RoleBindingNamePrefix <= r.result.value.name
      && r.cluster.bindings == c.bindings[ObjectRef(namespace, r.result.value.name) := Binding(serviceAccountName, roleName)]
      && (Fresh(c) ==> ObjectRef(namespace, r.result.value.name) !in c.bindings)
  {
    var c' := Logged(c, Call.CreateRoleBinding(namespace, serviceAccountName, roleName));
    if CreateRoleBindingOp in c.faults then Reply(c', Failure(Injected(CreateRoleBindingOp)))
    else
      var name := RoleBindingName(c.serial);
      Reply(c'.(bindings := c.bindings[ObjectRef(namespace, name) := Binding(serviceAccountName, roleName)],
                serial := c.serial + 1),
            Success(RoleBindingDetails(namespace, Decimal(c.serial), name)))
  }

  /** Removes exactly the named binding, or fails and changes nothing but the log. */
  function DeleteRoleBindingStep(c: Cluster, namespace: string, name: string): (r: Reply<()>)
    ensures r.cluster.log == c.log + [Call.DeleteRoleBinding(namespace, name)]
    ensures r.cluster.accounts == c.accounts && r.cluster.serial == c.serial
    ensures r.cluster.faults == c.faults && r.cluster.tokens == c.tokens
    ensures r.result.Success? <==> DeleteRoleBindingOp !in c.faults && ObjectRef(namespace, name) in c.bindings
    ensures r.result.Success? ==> r.cluster.bindings == c.bindings - {ObjectRef(namespace, name)}
    ensures r.result.Failure? ==> r.cluster.bindings == c.bindings
    ensures r.result.Failure? && DeleteRoleBindingOp !in c.faults ==> r.result.error == NotFound(ObjectRef(namespace, name))
  {
    var c' := Logged(c, Call.DeleteRoleBinding(namespace, name));
    var ref := ObjectRef(namespace, name);
    if DeleteRoleBindingOp in c.faults then Reply(c', Failure(Injected(DeleteRoleBindingOp)))
    else if ref !in c.bindings then Reply(c', Failure(NotFound(ref)))
    else Reply(c'.(bindings := c.bindings - {ref}), Success(()))
  }

  // Each step keeps the cluster fresh.

  lemma CreateServiceAccountKeepsFresh(c: Cluster, namespace: string)
    requires Fresh(c)
    ensures Fresh(CreateServiceAccountStep(c, namespace).cluster)
  {
    var c' := CreateServiceAccountStep(c, namespace).cluster;
    forall ns: string, k: nat | c'.serial <= k
      ensures ObjectRef(ns, ServiceAccountName(k)) !in c'.accounts
    {
      if ServiceAccountName(k) == ServiceAccountName(c.serial) {
        GeneratedNameInjective(ServiceAccountNamePrefix, k, c.serial);
      }
    }
  }

  lemma CreateRoleBindingKeepsFresh(c: Cluster, namespace: string, serviceAccountName: string, roleName: string)
    requires Fresh(c)
    ensures Fresh(CreateRoleBindingStep(c, namespace, serviceAccountName, roleName).cluster)
  {
    var c' := CreateRoleBindingStep(c, namespace, serviceAccountName, roleName).cluster;
    forall ns: string, k: nat | c'.serial <= k
      ensures ObjectRef(ns, RoleBindingName(k)) !in c'.bindings
    {
      if RoleBindingName(k) == RoleBindingName(c.serial) {
        GeneratedNameInjective(RoleBindingNamePrefix, k, c.serial);
      }
    }
  }

  /** The fake cluster as a mutable object with one method per client call. */
  class FakeCluster {
    var accounts: map<ObjectRef, seq<ServiceAccountSecret>>
    var bindings: map<ObjectRef, Binding>
    var serial: nat
    var log: seq<Call>
    var faults: set<Op>
    var tokens: seq<TokenData>

    function State(): Cluster
      reads this
    {
      Cluster(accounts, bindings, serial, log, faults, tokens)
    }

    ghost predicate Valid()
      reads this
    {
      Fresh(State())
    }

    /** An empty cluster that fails the calls in `faults` and attaches one
        secret per element of `tokens` to each new service account. */
    constructor (faults: set<Op>, tokens: seq<TokenData>)
      ensures Valid()
      ensures State() == Cluster(map[], map[], 0, [], faults, tokens)
    {
      this.accounts := map[];
      this.bindings := map[];
      this.serial := 0;
      this.log := [];
      this.faults := faults;
      this.tokens := tokens;
    }

    method CreateServiceAccount(namespace: string) returns (sa: Result<ServiceAccountDetails, KubeError>)
      requires Valid()
      modifies this
      ensures Valid()
      ensures Reply(State(), sa) == CreateServiceAccountStep(old(State()), namespace)
    {
      CreateServiceAccountKeepsFresh(State(), namespace);
      log := log + [Call.CreateServiceAccount(namespace)];
      if CreateServiceAccountOp in faults {
        sa := Failure(Injected(CreateServiceAccountOp));
      } else {
        var name := ServiceAccountName(serial);
        accounts := accounts[ObjectRef(namespace, name) := TokenSecrets(tokens, namespace)];
        sa := Success(ServiceAccountDetails(namespace, Decimal(serial), name));
        serial := serial + 1;
      }
    }

    method GetServiceAccountSecret(sa: ServiceAccountDetails) returns (secrets: Result<seq<ServiceAccountSecret>, KubeError>)
      requires Valid()
      modifies this
      ensures Valid()
      ensures Reply(State(), secrets) == GetServiceAccountSecretStep(old(State()), sa)
    {
      log := log + [Call.GetServiceAccountSecret(sa.namespace, sa.name)];
      var ref := ObjectRef(sa.namespace, sa.name);
      if GetServiceAccountSecretOp in faults {
        secrets := Failure(Injected(GetServiceAccountSecretOp));
      } else if ref in accounts {
        secrets := Success(accounts[ref]);
      } else {
        secrets := Success([]);
      }
    }

    method DeleteServiceAccount(namespace: string, name: string) returns (err: Result<(), KubeError>)
      requires Valid()
      modifies this
      ensures Valid()
      ensures Reply(State(), err) == DeleteServiceAccountStep(old(State()), namespace, name)
    {
      log := log + [Call.DeleteServiceAccount(namespace, name)];
      var ref := ObjectRef(namespace, name);
      if DeleteServiceAccountOp in faults {
        err := Failure(Injected(DeleteServiceAccountOp));
      } else if ref !in accounts {
        err := Failure(NotFound(ref));
      } else {
        accounts := accounts - {ref};
        err := Success(());
      }
    }

    method CreateRoleBinding(namespace: string, serviceAccountName: string, roleName: string)
      returns (rb: Result<RoleBindingDetails, KubeError>)
      requires Valid()
      modifies this
      ensures Valid()
      ensures Reply(State(), rb) == CreateRoleBindingStep(old(State()), namespace, serviceAccountName, roleName)
    {
      CreateRoleBindingKeepsFresh(State(), namespace, serviceAccountName, roleName);
      log := log + [Call.CreateRoleBinding(namespace, serviceAccountName, roleName)];
      if CreateRoleBindingOp in faults {
        rb := Failure(Injected(CreateRoleBindingOp));
      } else {
        var name := RoleBindingName(serial);
        bindings := bindings[ObjectRef(namespace, name) := Binding(serviceAccountName, roleName)];
        rb := Success(RoleBindingDetails(namespace, Decimal(serial), name));
        serial := serial + 1;
      }
    }

    method DeleteRoleBinding(namespace: string, name: string) returns (err: Result<(), KubeError>)
      requires Valid()
      modifies this
      ensures Valid()
      ensures Reply(State(), err) == DeleteRoleBindingStep(old(State()), namespace, name)
    {
      log := log + [Call.DeleteRoleBinding(namespace, name)];
      var ref := ObjectRef(namespace, name);
      if DeleteRoleBindingOp in faults {
        err := Failure(Injected(DeleteRoleBindingOp));
      } else if ref !in bindings {
        err := Failure(NotFound(ref));
      } else {
        bindings := bindings - {ref};
        err := Success(());
      }
    }
  }
}
